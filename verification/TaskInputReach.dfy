/** Every reachable workspace composes: the rows the digest reads obey the caps its bound needs. */
module TaskInputReach {
  import opened Prelude
  import opened RunQueue
  import opened RunQueueHistory
  import opened AgentTables
  import opened AgentActions
  import opened AgentActionsSafety
  import opened EncodedText
  import opened Digest
  import opened TaskInput

  function PriorityText(p: Priority): string {
    match p
    case MustHave => "must_have"
    case GoodToHave => "good_to_have"
  }

  function AvailabilityText(a: Availability): string {
    match a
    case AvailableNow => "enabled"
    case Implemented => "implemented"
    case NotImplemented => "not_implemented"
  }

  predicate Distinct(ids: seq<string>) {
    forall i, j :: 0 <= i < j < |ids| ==> ids[i] != ids[j]
  }

  /** Time stamps have 20 characters, host statuses at most 40. */
  predicate ShowsSchedule(t: Tables, s: ScheduleRow) {
    && s.id in t.schedules && s.title == t.schedules[s.id].title
    && s.everyMinutes == (if t.schedules[s.id].everyMinutes.None? then None else Some(t.schedules[s.id].everyMinutes.value))
    && (s.nextRunAt.Some? ==> |s.nextRunAt.value| == 20) && (s.lastRunStatus.Some? ==> |s.lastRunStatus.value| <= 40)
  }

  predicate ShowsTool(t: Tables, row: ToolRow) {
    && row.id in t.tools && row.title == t.tools[row.id].title && row.note == t.tools[row.id].note
    && row.priority == PriorityText(t.tools[row.id].priority)
    && row.status == AvailabilityText(t.tools[row.id].availability)
  }

  predicate ShowsArtifact(t: Tables, a: ArtifactRow) {
    && a.id in t.artifacts && a.title == t.artifacts[a.id].title && a.dataChars == |t.artifacts[a.id].data|
    && a.hasView == t.artifacts[a.id].view.Some? && |a.updatedAt| == 20
  }

  predicate ShowsMemory(t: Tables, m: MemoryRow) {
    m.id in t.memories && m.content == t.memories[m.id]
  }

  /** What the digest query reads of the tables, in whatever order. */
  ghost predicate Shows(t: Tables, r: Rows) {
    && r.goal == t.goal && r.measurement == t.measurement
    && (forall s :: s in r.schedules ==> ShowsSchedule(t, s))
    && Distinct(seq(|r.schedules|, i requires 0 <= i < |r.schedules| => r.schedules[i].id))
    && (forall x :: x in r.tools ==> ShowsTool(t, x))
    && Distinct(seq(|r.tools|, i requires 0 <= i < |r.tools| => r.tools[i].id))
    && (forall a :: a in r.artifacts ==> ShowsArtifact(t, a))
    && Distinct(seq(|r.artifacts|, i requires 0 <= i < |r.artifacts| => r.artifacts[i].id))
    && (forall m :: m in r.memories ==> ShowsMemory(t, m))
    && Distinct(seq(|r.memories|, i requires 0 <= i < |r.memories| => r.memories[i].id))
  }

  /** There are no more distinct ids than keys. */
  lemma {:induction false} DistinctIdsAreFew(ids: seq<string>, keys: set<string>)
    requires Distinct(ids) && forall i :: 0 <= i < |ids| ==> ids[i] in keys
    ensures |ids| <= |keys|
    decreases |ids|
  {
    if ids != [] {
      var last := |ids| - 1;
      DistinctIdsAreFew(ids[..last], keys - {ids[last]});
    }
  }

  lemma ScheduleRowsObeyCaps(t: Tables, r: Rows)
    requires SchedulesWithinCaps(t.schedules) && (forall s :: s in r.schedules ==> ShowsSchedule(t, s))
    requires Distinct(seq(|r.schedules|, i requires 0 <= i < |r.schedules| => r.schedules[i].id))
    ensures |r.schedules| <= 20 && forall s :: s in r.schedules ==> ShortSchedule(s)
  {
    var ids := seq(|r.schedules|, i requires 0 <= i < |r.schedules| => r.schedules[i].id);
    forall i | 0 <= i < |ids| ensures ids[i] in t.schedules.Keys { assert ShowsSchedule(t, r.schedules[i]); }
    DistinctIdsAreFew(ids, t.schedules.Keys);
  }

  lemma ToolRowsObeyCaps(t: Tables, r: Rows)
    requires ToolsWithinCaps(t.tools) && (forall x :: x in r.tools ==> ShowsTool(t, x))
    requires Distinct(seq(|r.tools|, i requires 0 <= i < |r.tools| => r.tools[i].id))
    ensures |r.tools| <= 30 && forall x :: x in r.tools ==> ShortTool(x)
  {
    var ids := seq(|r.tools|, i requires 0 <= i < |r.tools| => r.tools[i].id);
    forall i | 0 <= i < |ids| ensures ids[i] in t.tools.Keys { assert ShowsTool(t, r.tools[i]); }
    DistinctIdsAreFew(ids, t.tools.Keys);
  }

  lemma ArtifactRowsObeyCaps(t: Tables, r: Rows)
    requires ArtifactsWithinCaps(t.artifacts) && (forall a :: a in r.artifacts ==> ShowsArtifact(t, a))
    requires Distinct(seq(|r.artifacts|, i requires 0 <= i < |r.artifacts| => r.artifacts[i].id))
    ensures |r.artifacts| <= 100 && forall a :: a in r.artifacts ==> ShortArtifact(a)
  {
    var ids := seq(|r.artifacts|, i requires 0 <= i < |r.artifacts| => r.artifacts[i].id);
    forall i | 0 <= i < |ids| ensures ids[i] in t.artifacts.Keys { assert ShowsArtifact(t, r.artifacts[i]); }
    DistinctIdsAreFew(ids, t.artifacts.Keys);
  }

  lemma MemoryRowsObeyCaps(t: Tables, r: Rows)
    requires MemoriesWithinCaps(t.memories) && (forall m :: m in r.memories ==> ShowsMemory(t, m))
    requires Distinct(seq(|r.memories|, i requires 0 <= i < |r.memories| => r.memories[i].id))
    ensures |r.memories| <= 40 && forall m :: m in r.memories ==> ShortMemory(m)
  {
    var ids := seq(|r.memories|, i requires 0 <= i < |r.memories| => r.memories[i].id);
    forall i | 0 <= i < |ids| ensures ids[i] in t.memories.Keys { assert ShowsMemory(t, r.memories[i]); }
    DistinctIdsAreFew(ids, t.memories.Keys);
  }

  /** In every reachable state the rows of the digest are within their caps, so the input composes. */
  lemma ReachableRowsObeyCaps(states: seq<Engine>, events: seq<EngineEvent>, i: nat, r: Rows)
    requires EngineExecution(states, events) && i < |states| && Shows(TablesOf(states[i]), r)
    ensures RowsWithinCaps(r)
  {
    var t := TablesOf(states[i]);
    CapsHold(states, events, i);
    ScheduleRowsObeyCaps(t, r);
    ToolRowsObeyCaps(t, r);
    ArtifactRowsObeyCaps(t, r);
    MemoryRowsObeyCaps(t, r);
  }

  // ---------------------------------------------------------------------------
  // Payloads

  const USER_MESSAGE_LIMIT := 20_000
  const FIELD_VALUE_LIMIT := 1_000

  /** What a control of an artifact's view sends. */
  datatype ControlValue = Pressed | Toggled(on: bool) | Filled(value: string)

  /** What a human sends: a typed message, or an interaction with a control. */
  datatype HumanInput = Typed(content: string) | Interaction(artifact: Name, control: Name, value: ControlValue)

  function TypeOf(v: ControlValue): string {
    match v
    case Pressed => "button"
    case Toggled(_) => "toggle"
    case Filled(_) => "field"
  }

  function ValueText(v: ControlValue): string {
    match v
    case Pressed => "true"
    case Toggled(on) => if on then "true" else "false"
    case Filled(value) => "\"" + EscapedText(value) + "\""
  }

  predicate ValueOk(v: ControlValue) {
    v.Filled? ==> |v.value| <= FIELD_VALUE_LIMIT
  }

  /** The event that an interaction turns into. */
  function InteractionText(artifact: Name, control: Name, v: ControlValue): string {
    "{\"artifact_id\":\"" + artifact + "\",\"control_id\":\"" + control + "\",\"control_type\":\"" + TypeOf(v)
    + "\",\"type\":\"artifact_interaction\",\"value\":" + ValueText(v) + "}"
  }

  /** The content of the message that an input is stored as, if it is accepted. */
  function ContentOf(i: HumanInput): Option<string> {
    match i
    case Typed(content) =>
      if Strip(content) == "" || |Strip(content)| > USER_MESSAGE_LIMIT then None else Some(Strip(content))
    case Interaction(artifact, control, v) =>
      if IsSlug(artifact) && IsSlug(control) && ValueOk(v) then Some(InteractionText(artifact, control, v)) else None
  }

  lemma AcceptedContentFits(i: HumanInput)
    requires ContentOf(i).Some?
    ensures 0 < |ContentOf(i).value| <= PAYLOAD_LIMIT
  {
    if i.Interaction? {
      if i.value.Filled? {
        EncodedSizeIsExact(i.value.value);
      }
      assert |ValueText(i.value)| <= 12 * FIELD_VALUE_LIMIT + 2;
      assert |TypeOf(i.value)| <= 6;
    }
  }

  /** The step queues a human input: one more chat run. */
  ghost predicate Queues(s: Engine, e: EngineEvent, s': Engine) {
    e.OnQueue? && (e.e.ESend? || e.e.EInteract?) && |s.queue.runs| < |s'.queue.runs|
  }

  /** `inputs[k]` is what the human sent in step `k`; only accepted inputs are queued. */
  ghost predicate InputsAccepted(states: seq<Engine>, events: seq<EngineEvent>, inputs: seq<HumanInput>)
    requires EngineExecution(states, events)
  {
    && |inputs| == |events|
    && forall k {:trigger inputs[k]} :: 0 <= k < |events| && Queues(states[k], events[k], states[k + 1]) ==> ContentOf(inputs[k]).Some?
  }

  /** The messages table: the content of each input that was queued, under its run. */
  ghost function Messages(states: seq<Engine>, events: seq<EngineEvent>, inputs: seq<HumanInput>, i: nat): map<nat, string>
    requires EngineExecution(states, events) && InputsAccepted(states, events, inputs) && i < |states|
  {
    if i == 0 then map[]
    else
      var before := Messages(states, events, inputs, i - 1);
      if Queues(states[i - 1], events[i - 1], states[i]) then
        before[|states[i - 1].queue.runs| := ContentOf(inputs[i - 1]).value]
      else before
  }

  /** Every chat run has its message, and every message was accepted. */
  ghost predicate MessagesOk(runs: seq<Run>, messages: map<nat, string>) {
    && (forall r :: 0 <= r < |runs| && runs[r].kind.Chat? ==> r in messages)
    && (forall r :: r in messages ==> exists i :: ContentOf(i) == Some(messages[r]))
  }

  /** Chat runs come from human inputs only, one at a time. */
  lemma NewRowIsQueued(q: Queue, e: Event, r: nat)
    requires Enabled(q, e) && |q.runs| <= r < |Step(q, e).runs| && Step(q, e).runs[r].kind.Chat?
    ensures (e.ESend? || e.EInteract?) && r == |q.runs|
  {
    if e.EFire? && IsActive(q) {
      FiredRowsAreScheduled(q, e.due, e.at);
    }
  }

  lemma FiredRowsAreScheduled(q: Queue, due: seq<Name>, now: Clock)
    requires forall i :: 0 <= i < |due| ==> due[i] in q.schedules && q.schedules[due[i]].next.Some?
    requires forall i, j :: 0 <= i < j < |due| ==> due[i] != due[j]
    ensures |q.runs| <= |FireAll(q, due, now).runs|
    ensures forall r :: |q.runs| <= r < |FireAll(q, due, now).runs| ==> FireAll(q, due, now).runs[r].kind.Scheduled?
    decreases |due|
  {
    if due != [] {
      var q' := FireOne(q, due[0], now);
      FiredRowsAreScheduled(q', due[1..], now);
      forall r | |q.runs| <= r < |FireAll(q, due, now).runs|
        ensures FireAll(q, due, now).runs[r].kind.Scheduled?
      {
        if r < |q'.runs| {
          FireKeepsRow(q', due[1..], now, r);
        }
      }
    }
  }

  lemma RowsOfStep(s: Engine, e: EngineEvent, s': Engine, r: nat)
    requires EngineInv(s) && EngineEnabled(s, e) && s' == EngineStep(s, e)
    requires r < |s'.queue.runs| && s'.queue.runs[r].kind.Chat?
    ensures (r < |s.queue.runs| && s.queue.runs[r].kind.Chat?) || (r == |s.queue.runs| && Queues(s, e, s'))
  {
    if e.OnQueue? {
      StepEvolves(s.queue, e.e);
      if r < |s.queue.runs| {
        assert RunEvolves(s.queue.runs[r], s'.queue.runs[r]);
      } else {
        NewRowIsQueued(s.queue, e.e, r);
      }
    } else if e.Write? {
      WriteEffect(s, e);
    } else if e.Operate? {
      OperateEffect(s, e.edit);
    } else {
      CallKeepsTables(s, e);
    }
  }

  lemma RowsOfNext(states: seq<Engine>, events: seq<EngineEvent>, i: nat, r: nat)
    requires EngineExecution(states, events) && i < |events|
    requires r < |states[i + 1].queue.runs| && states[i + 1].queue.runs[r].kind.Chat?
    ensures (r < |states[i].queue.runs| && states[i].queue.runs[r].kind.Chat?)
         || (r == |states[i].queue.runs| && Queues(states[i], events[i], states[i + 1]))
  {
    ReachableEngineInv(states, events, i);
    RowsOfStep(states[i], events[i], states[i + 1], r);
  }

  lemma NextMessagesOk(states: seq<Engine>, events: seq<EngineEvent>, inputs: seq<HumanInput>, i: nat)
    requires EngineExecution(states, events) && InputsAccepted(states, events, inputs) && i < |events|
    requires MessagesOk(states[i].queue.runs, Messages(states, events, inputs, i))
    ensures MessagesOk(states[i + 1].queue.runs, Messages(states, events, inputs, i + 1))
  {
    var messages := Messages(states, events, inputs, i + 1);
    forall r | 0 <= r < |states[i + 1].queue.runs| && states[i + 1].queue.runs[r].kind.Chat? ensures r in messages {
      RowsOfNext(states, events, i, r);
    }
    if Queues(states[i], events[i], states[i + 1]) {
      assert ContentOf(inputs[i]) == Some(messages[|states[i].queue.runs|]);
    }
  }

  /** In every reachable state every chat run has its message, and that message was accepted. */
  lemma {:induction false} ReachableMessages(states: seq<Engine>, events: seq<EngineEvent>, inputs: seq<HumanInput>, i: nat)
    requires EngineExecution(states, events) && InputsAccepted(states, events, inputs) && i < |states|
    ensures MessagesOk(states[i].queue.runs, Messages(states, events, inputs, i))
  {
    if i > 0 {
      ReachableMessages(states, events, inputs, i - 1);
      NextMessagesOk(states, events, inputs, i - 1);
    }
  }

  /** Run `r` was queued in step `k`, and `text` is the content of what the human sent in that step. */
  ghost predicate SentIn(states: seq<Engine>, events: seq<EngineEvent>, inputs: seq<HumanInput>, k: nat, r: nat, text: string)
    requires EngineExecution(states, events) && InputsAccepted(states, events, inputs)
  {
    && k < |events| && Queues(states[k], events[k], states[k + 1]) && r == |states[k].queue.runs|
    && ContentOf(inputs[k]) == Some(text)
  }

  lemma {:induction false} MessagesAreSent(states: seq<Engine>, events: seq<EngineEvent>, inputs: seq<HumanInput>, i: nat, r: nat)
    requires EngineExecution(states, events) && InputsAccepted(states, events, inputs) && i < |states|
    requires r in Messages(states, events, inputs, i)
    ensures exists k: nat :: k < i && SentIn(states, events, inputs, k, r, Messages(states, events, inputs, i)[r])
    decreases i
  {
    var text := Messages(states, events, inputs, i)[r];
    if i > 0 {
      if Queues(states[i - 1], events[i - 1], states[i]) && r == |states[i - 1].queue.runs| {
        assert ContentOf(inputs[i - 1]).Some?;
        assert states[i - 1 + 1] == states[i];
        assert SentIn(states, events, inputs, i - 1, r, text);
      } else {
        MessagesAreSent(states, events, inputs, i - 1, r);
        var k: nat :| k < i - 1 && SentIn(states, events, inputs, k, r, text);
      }
    }
  }

  /** In every run the message of each chat run is the content of the very input that queued it. */
  lemma EachRunHasItsOwnMessage(states: seq<Engine>, events: seq<EngineEvent>, inputs: seq<HumanInput>, i: nat, r: nat)
    requires EngineExecution(states, events) && InputsAccepted(states, events, inputs)
    requires i < |states| && r < |states[i].queue.runs| && states[i].queue.runs[r].kind.Chat?
    ensures r in Messages(states, events, inputs, i)
    ensures exists k: nat :: k < i && SentIn(states, events, inputs, k, r, Messages(states, events, inputs, i)[r])
  {
    ReachableMessages(states, events, inputs, i);
    MessagesAreSent(states, events, inputs, i, r);
  }

  /**
   * A typed message is accepted exactly if something visible is left of it, of at most
   * 20,000 characters, and is stored without its surrounding white space.
   */
  lemma TypedContentIsExact(content: string) returns (text: string)
    ensures IsStripped(content, text)
    ensures ContentOf(Typed(content)) == if 0 < |text| <= 20_000 then Some(text) else None
  {
    text := Strip(content);
    StripIsExact(content);
  }

  /** What the dispatch of a run puts into its task input; the run of a deleted schedule is orphaned instead. */
  function PayloadOf(q: Queue, r: nat, messages: map<nat, string>, firedAt: string): Option<string>
    requires r < |q.runs|
  {
    match q.runs[r].kind
    case Chat => Some(if r in messages then messages[r] else "")
    case Scheduled(n) =>
      if n !in q.schedules then None
      else Some(SchedulePayload(q.schedules[n].title, n, firedAt, q.schedules[n].prompt))
  }

  /** In every reachable state the payload of every run, chat or scheduled, is within its bound. */
  lemma ReachablePayloadFits(states: seq<Engine>, events: seq<EngineEvent>, inputs: seq<HumanInput>, i: nat, r: nat, firedAt: string)
    requires EngineExecution(states, events) && InputsAccepted(states, events, inputs)
    requires i < |states| && r < |states[i].queue.runs| && |firedAt| == 20
    ensures var payload := PayloadOf(states[i].queue, r, Messages(states, events, inputs, i), firedAt);
      payload.Some? ==> |payload.value| <= PAYLOAD_LIMIT
  {
    var q, messages := states[i].queue, Messages(states, events, inputs, i);
    if q.runs[r].kind.Chat? {
      ReachableMessages(states, events, inputs, i);
      var input :| ContentOf(input) == Some(messages[r]);
      AcceptedContentFits(input);
    } else if q.runs[r].kind.schedule in q.schedules {
      SchedulePayloadFits(states, events, i, q.runs[r].kind.schedule, firedAt);
    }
  }

  lemma SchedulePayloadFits(states: seq<Engine>, events: seq<EngineEvent>, i: nat, id: Name, firedAt: string)
    requires EngineExecution(states, events) && i < |states| && id in states[i].queue.schedules && |firedAt| == 20
    ensures var s := states[i].queue.schedules[id];
      |SchedulePayload(s.title, id, firedAt, s.prompt)| <= PAYLOAD_LIMIT
  {
    CapsHold(states, events, i);
    assert id in TablesOf(states[i]).schedules;
  }
}
