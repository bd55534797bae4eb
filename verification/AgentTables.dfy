/**
 * What an agent action does to the workspace tables: the shape check, the
 * context check, the write. Text limits count characters, as the source does.
 */
module AgentTables {
  import opened Prelude
  import opened RunQueue

  const GOAL_LIMIT := 500
  const MEASUREMENT_LIMIT := 500
  const TITLE_LIMIT := 120
  const SCHEDULE_PROMPT_LIMIT := 4_000
  const DATA_LIMIT := 16_000
  const MEMORY_CONTENT_LIMIT := 300
  const TOOL_NOTE_LIMIT := 200
  const SLUG_LIMIT := 48
  const MAX_ARTIFACTS := 100
  const MAX_MEMORIES := 40
  const MAX_TOOLS := 30

  datatype Priority = MustHave | GoodToHave
  datatype Availability = AvailableNow | Implemented | NotImplemented

  datatype Tool = Tool(title: string, priority: Priority, availability: Availability, note: string)

  /** `data` and `view` are serialized documents. */
  datatype Artifact = Artifact(title: string, data: string, view: Option<string>)

  datatype Tables = Tables(
    goal: string, measurement: string,
    memories: map<Name, string>, tools: map<Name, Tool>, artifacts: map<Name, Artifact>,
    schedules: map<Name, Schedule>)

  datatype Action =
    | SetGoal(goal: string)
    | SetMeasurement(measurement: string)
    | Remember(id: Name, content: string)
    | Forget(id: Name)
    | UpsertTool(id: Name, title: string, priority: Priority, availability: Availability, note: Option<string>)
    | DeleteTool(id: Name)
    | CreateArtifact(id: Name, title: string, data: string, view: Option<string>)
    | UpdateArtifact(id: Name, newTitle: Option<string>, newData: Option<string>, newView: Option<Option<string>>)
    | DeleteArtifact(id: Name)
    | Scheduling(op: ScheduleOp)

  /** What the operator may do to the agent's tables; schedules are edited through the queue. */
  datatype UiEdit =
    | EditMemory(id: Name, content: string)
    | DropMemory(id: Name)
    | DropTool(id: Name)
    | DropArtifact(id: Name)

  datatype Rejection = Shape | DoesNotExist | Exists | LimitReached | Refused(refusal: Refusal)

  // ---------------------------------------------------------------------------
  // Shapes

  predicate IsSlugChar(c: char) {
    'a' <= c <= 'z' || '0' <= c <= '9' || c == '_' || c == '-'
  }

  /** A lower-case letter followed by at most 47 slug characters. */
  predicate IsSlug(s: string) {
    0 < |s| <= SLUG_LIMIT && 'a' <= s[0] <= 'z' && forall i :: 0 < i < |s| ==> IsSlugChar(s[i])
  }

  predicate IsSpace(c: char) {
    c in " \t\n\r" || c == '\U{0B}' || c == '\U{0C}' || '\U{1C}' <= c <= '\U{1F}' || c == '\U{85}' || c == '\U{A0}'
  }

  function StripLeft(s: string): (t: string)
    ensures |t| <= |s| && (t != "" ==> !IsSpace(t[0]))
  {
    if s != "" && IsSpace(s[0]) then StripLeft(s[1..]) else s
  }

  function StripRight(s: string): (t: string)
    ensures |t| <= |s| && t <= s && (t != "" ==> !IsSpace(t[|t| - 1]))
  {
    if s != "" && IsSpace(s[|s| - 1]) then StripRight(s[..|s| - 1]) else s
  }

  function Strip(s: string): (t: string)
    ensures |t| <= |s|
  {
    StripRight(StripLeft(s))
  }

  predicate AllSpace(s: string) {
    forall i :: 0 <= i < |s| ==> IsSpace(s[i])
  }

  /** `t` is `s` without its surrounding white space. */
  ghost predicate IsStripped(s: string, t: string) {
    && (t != "" ==> !IsSpace(t[0]) && !IsSpace(t[|t| - 1]))
    && exists left, right :: AllSpace(left) && AllSpace(right) && s == left + t + right
  }

  lemma {:induction false} LeftIsSpace(s: string) returns (left: string)
    ensures AllSpace(left) && s == left + StripLeft(s)
  {
    if s != "" && IsSpace(s[0]) {
      var rest := LeftIsSpace(s[1..]);
      left := [s[0]] + rest;
      assert s == [s[0]] + s[1..] && StripLeft(s) == StripLeft(s[1..]);
      assert left + StripLeft(s) == [s[0]] + (rest + StripLeft(s[1..]));
    } else {
      left := "";
    }
  }

  lemma {:induction false} RightIsSpace(s: string) returns (right: string)
    ensures AllSpace(right) && s == StripRight(s) + right
    decreases |s|
  {
    if s != "" && IsSpace(s[|s| - 1]) {
      var rest := RightIsSpace(s[..|s| - 1]);
      right := rest + [s[|s| - 1]];
      assert s == s[..|s| - 1] + [s[|s| - 1]] && StripRight(s) == StripRight(s[..|s| - 1]);
      assert StripRight(s) + right == (StripRight(s[..|s| - 1]) + rest) + [s[|s| - 1]];
    } else {
      right := "";
    }
  }

  lemma StripIsExact(s: string)
    ensures IsStripped(s, Strip(s))
  {
    var left := LeftIsSpace(s);
    var right := RightIsSpace(StripLeft(s));
    assert s == left + Strip(s) + right;
  }

  /** Only a blank text is stripped to nothing. */
  lemma NothingIsLeftOfBlanks(s: string, t: string)
    requires IsStripped(s, t)
    ensures t == "" <==> AllSpace(s)
  {
    var left, right :| AllSpace(left) && AllSpace(right) && s == left + t + right;
    assert t != "" ==> s[|left|] == t[0];
  }

  predicate TextOk(s: string, limit: nat, allowEmpty: bool := false) {
    |s| <= limit && (allowEmpty || Strip(s) != "")
  }

  predicate OptionalTextOk(s: Option<string>, limit: nat) {
    s.Some? ==> TextOk(s.value, limit)
  }

  /** The context-free check of an action's fields. */
  predicate WellShaped(a: Action) {
    match a
    case SetGoal(goal) => TextOk(goal, GOAL_LIMIT, true)
    case SetMeasurement(m) => TextOk(m, MEASUREMENT_LIMIT, true)
    case Remember(id, content) => IsSlug(id) && TextOk(content, MEMORY_CONTENT_LIMIT)
    case Forget(id) => IsSlug(id)
    case UpsertTool(id, title, _, _, note) =>
      IsSlug(id) && TextOk(title, TITLE_LIMIT) && (note.Some? ==> TextOk(note.value, TOOL_NOTE_LIMIT, true))
    case DeleteTool(id) => IsSlug(id)
    case CreateArtifact(id, title, data, _) => IsSlug(id) && TextOk(title, TITLE_LIMIT) && |data| <= DATA_LIMIT
    case UpdateArtifact(id, title, data, view) =>
      && (title.Some? || data.Some? || view.Some?)
      && IsSlug(id) && OptionalTextOk(title, TITLE_LIMIT) && (data.Some? ==> |data.value| <= DATA_LIMIT)
    case DeleteArtifact(id) => IsSlug(id)
    case Scheduling(op) =>
      match op
      case Create(n, title, prompt, _) =>
        IsSlug(n) && TextOk(title, TITLE_LIMIT) && TextOk(prompt, SCHEDULE_PROMPT_LIMIT)
      case Update(n, title, prompt, cadence, enabled) =>
        && (title.Some? || prompt.Some? || cadence.Some? || enabled.Some?)
        && IsSlug(n) && OptionalTextOk(title, TITLE_LIMIT) && OptionalTextOk(prompt, SCHEDULE_PROMPT_LIMIT)
      case Delete(n) => IsSlug(n)
      case SetEnabled(_, _) => false // the operator's switch, not an agent action
  }

  // ---------------------------------------------------------------------------
  // Writes

  function StripOption(s: Option<string>): Option<string> {
    if s.Some? then Some(Strip(s.value)) else None
  }

  /** The operation as it is stored: titles and prompts are stripped. */
  function StrippedOp(op: ScheduleOp): ScheduleOp {
    match op
    case Create(n, title, prompt, cadence) => Create(n, Strip(title), Strip(prompt), cadence)
    case Update(n, title, prompt, cadence, enabled) =>
      Update(n, StripOption(title), StripOption(prompt), cadence, enabled)
    case _ => op
  }

  /** The write of one well-shaped action, or the reason why it is rejected. */
  function ApplyAction(t: Tables, active: bool, a: Action, now: Clock): Result<Tables, Rejection> {
    match a
    case SetGoal(goal) => Ok(t.(goal := Strip(goal)))
    case SetMeasurement(m) => Ok(t.(measurement := Strip(m)))
    case Remember(id, content) =>
      if id !in t.memories && |t.memories| >= MAX_MEMORIES then Error(LimitReached)
      else Ok(t.(memories := t.memories[id := Strip(content)]))
    case Forget(id) =>
      if id !in t.memories then Error(DoesNotExist) else Ok(t.(memories := t.memories - {id}))
    case UpsertTool(id, title, priority, availability, note) =>
      if id !in t.tools && |t.tools| >= MAX_TOOLS then Error(LimitReached)
      else
        var tool := Tool(Strip(title), priority, availability, if note.Some? then Strip(note.value) else "");
        Ok(t.(tools := t.tools[id := tool]))
    case DeleteTool(id) =>
      if id !in t.tools then Error(DoesNotExist) else Ok(t.(tools := t.tools - {id}))
    case CreateArtifact(id, title, data, view) =>
      if id in t.artifacts then Error(Exists)
      else if |t.artifacts| >= MAX_ARTIFACTS then Error(LimitReached)
      else Ok(t.(artifacts := t.artifacts[id := Artifact(Strip(title), data, view)]))
    case UpdateArtifact(id, title, data, view) =>
      if id !in t.artifacts then Error(DoesNotExist)
      else
        var row := t.artifacts[id];
        var updated := Artifact(
          if title.Some? then Strip(title.value) else row.title,
          if data.Some? then data.value else row.data,
          if view.Some? then view.value else row.view);
        Ok(t.(artifacts := t.artifacts[id := updated]))
    case DeleteArtifact(id) =>
      if id !in t.artifacts then Error(DoesNotExist) else Ok(t.(artifacts := t.artifacts - {id}))
    case Scheduling(op) =>
      match EditedSchedules(t.schedules, active, StrippedOp(op), now)
      case Ok(schedules) => Ok(t.(schedules := schedules))
      case Error(refusal) => Error(Refused(refusal))
  }

  /** The shape check and then the write. */
  function Judged(t: Tables, active: bool, a: Action, now: Clock): Result<Tables, Rejection> {
    if WellShaped(a) then ApplyAction(t, active, a, now) else Error(Shape)
  }

  /** The operator's edit; unlike the agent's texts, the new content is measured after it is stripped. */
  function ApplyEdit(t: Tables, e: UiEdit): Result<Tables, Rejection> {
    match e
    case EditMemory(id, content) =>
      if Strip(content) == "" || |Strip(content)| > MEMORY_CONTENT_LIMIT then Error(Shape)
      else if id !in t.memories then Error(DoesNotExist)
      else Ok(t.(memories := t.memories[id := Strip(content)]))
    case DropMemory(id) =>
      if id !in t.memories then Error(DoesNotExist) else Ok(t.(memories := t.memories - {id}))
    case DropTool(id) =>
      if id !in t.tools then Error(DoesNotExist) else Ok(t.(tools := t.tools - {id}))
    case DropArtifact(id) =>
      if id !in t.artifacts then Error(DoesNotExist) else Ok(t.(artifacts := t.artifacts - {id}))
  }

  // ---------------------------------------------------------------------------
  // The caps

  ghost predicate MemoriesWithinCaps(memories: map<Name, string>) {
    |memories| <= MAX_MEMORIES
    && forall n :: n in memories ==> IsSlug(n) && |memories[n]| <= MEMORY_CONTENT_LIMIT
  }

  ghost predicate ToolsWithinCaps(tools: map<Name, Tool>) {
    |tools| <= MAX_TOOLS
    && forall n :: n in tools ==> IsSlug(n) && |tools[n].title| <= TITLE_LIMIT && |tools[n].note| <= TOOL_NOTE_LIMIT
  }

  ghost predicate ArtifactsWithinCaps(artifacts: map<Name, Artifact>) {
    |artifacts| <= MAX_ARTIFACTS
    && forall n :: n in artifacts ==> IsSlug(n) && |artifacts[n].title| <= TITLE_LIMIT && |artifacts[n].data| <= DATA_LIMIT
  }

  ghost predicate SchedulesWithinCaps(schedules: map<Name, Schedule>) {
    |schedules| <= MAX_SCHEDULES
    && forall n :: n in schedules ==>
         IsSlug(n) && |schedules[n].title| <= TITLE_LIMIT && |schedules[n].prompt| <= SCHEDULE_PROMPT_LIMIT
  }

  ghost predicate WithinCaps(t: Tables) {
    && |t.goal| <= GOAL_LIMIT && |t.measurement| <= MEASUREMENT_LIMIT
    && MemoriesWithinCaps(t.memories) && ToolsWithinCaps(t.tools)
    && ArtifactsWithinCaps(t.artifacts) && SchedulesWithinCaps(t.schedules)
  }

  lemma SizeOfUpdate<V>(m: map<Name, V>, n: Name, v: V)
    ensures |m[n := v]| == if n in m then |m| else |m| + 1
  {
    if n in m {
      assert m[n := v].Keys == m.Keys;
      assert |m[n := v].Keys| == |m.Keys|;
    } else {
      assert m[n := v].Keys == m.Keys + {n};
      assert |m[n := v].Keys| == |m.Keys| + 1;
    }
  }

  lemma SizeOfRemoval<V>(m: map<Name, V>, n: Name)
    requires n in m
    ensures |m - {n}| == |m| - 1
  {
    assert (m - {n}).Keys == m.Keys - {n};
    assert |(m - {n}).Keys| == |m.Keys| - 1;
  }

  lemma PutSchedule(schedules: map<Name, Schedule>, n: Name, s: Schedule)
    requires SchedulesWithinCaps(schedules) && IsSlug(n) && (n in schedules || |schedules| < MAX_SCHEDULES)
    requires |s.title| <= TITLE_LIMIT && |s.prompt| <= SCHEDULE_PROMPT_LIMIT
    ensures SchedulesWithinCaps(schedules[n := s])
  {
    SizeOfUpdate(schedules, n, s);
  }

  lemma DropSchedule(schedules: map<Name, Schedule>, n: Name)
    requires SchedulesWithinCaps(schedules) && n in schedules
    ensures SchedulesWithinCaps(schedules - {n})
  {
    SizeOfRemoval(schedules, n);
  }

  lemma UpdatedWithinCaps(schedules: map<Name, Schedule>, n: Name, title: Option<string>, prompt: Option<string>,
                          cadence: Option<Cadence>, enabled: Option<bool>, now: Clock)
    requires SchedulesWithinCaps(schedules) && n in schedules
    requires OptionalTextOk(title, TITLE_LIMIT) && OptionalTextOk(prompt, SCHEDULE_PROMPT_LIMIT)
    ensures var s := UpdatedSchedule(schedules[n], StripOption(title), StripOption(prompt), cadence, enabled, now);
      SchedulesWithinCaps(schedules[n := s])
  {
    PutSchedule(schedules, n,
      UpdatedSchedule(schedules[n], StripOption(title), StripOption(prompt), cadence, enabled, now));
  }

  lemma SwitchedWithinCaps(schedules: map<Name, Schedule>, n: Name, on: bool, now: Clock)
    requires SchedulesWithinCaps(schedules) && n in schedules
    ensures SchedulesWithinCaps(schedules[n := SwitchedSchedule(schedules[n], on, now)])
  {
    PutSchedule(schedules, n, SwitchedSchedule(schedules[n], on, now));
  }

  lemma EditStaysWithinCaps(schedules: map<Name, Schedule>, active: bool, op: ScheduleOp, now: Clock)
    requires SchedulesWithinCaps(schedules) && (op.SetEnabled? || WellShaped(Scheduling(op)))
    requires EditedSchedules(schedules, active, StrippedOp(op), now).Ok?
    ensures SchedulesWithinCaps(EditedSchedules(schedules, active, StrippedOp(op), now).value)
  {
    match op
    case Create(n, _, _, _) =>
      var after := EditedSchedules(schedules, active, StrippedOp(op), now).value;
      PutSchedule(schedules, n, after[n]);
    case Update(n, title, prompt, cadence, enabled) =>
      UpdatedWithinCaps(schedules, n, title, prompt, cadence, enabled, now);
    case Delete(n) => DropSchedule(schedules, n);
    case SetEnabled(n, on) => SwitchedWithinCaps(schedules, n, on, now);
  }

  lemma PutMemory(memories: map<Name, string>, n: Name, content: string)
    requires MemoriesWithinCaps(memories) && IsSlug(n) && |content| <= MEMORY_CONTENT_LIMIT
    requires n in memories || |memories| < MAX_MEMORIES
    ensures MemoriesWithinCaps(memories[n := content])
  {
    SizeOfUpdate(memories, n, content);
  }

  lemma DropMemoryRow(memories: map<Name, string>, n: Name)
    requires MemoriesWithinCaps(memories) && n in memories
    ensures MemoriesWithinCaps(memories - {n})
  {
    SizeOfRemoval(memories, n);
  }

  lemma PutTool(tools: map<Name, Tool>, n: Name, tool: Tool)
    requires ToolsWithinCaps(tools) && IsSlug(n) && |tool.title| <= TITLE_LIMIT && |tool.note| <= TOOL_NOTE_LIMIT
    requires n in tools || |tools| < MAX_TOOLS
    ensures ToolsWithinCaps(tools[n := tool])
  {
    SizeOfUpdate(tools, n, tool);
  }

  lemma DropToolRow(tools: map<Name, Tool>, n: Name)
    requires ToolsWithinCaps(tools) && n in tools
    ensures ToolsWithinCaps(tools - {n})
  {
    SizeOfRemoval(tools, n);
  }

  lemma PutArtifact(artifacts: map<Name, Artifact>, n: Name, a: Artifact)
    requires ArtifactsWithinCaps(artifacts) && IsSlug(n) && |a.title| <= TITLE_LIMIT && |a.data| <= DATA_LIMIT
    requires n in artifacts || |artifacts| < MAX_ARTIFACTS
    ensures ArtifactsWithinCaps(artifacts[n := a])
  {
    SizeOfUpdate(artifacts, n, a);
  }

  lemma DropArtifactRow(artifacts: map<Name, Artifact>, n: Name)
    requires ArtifactsWithinCaps(artifacts) && n in artifacts
    ensures ArtifactsWithinCaps(artifacts - {n})
  {
    SizeOfRemoval(artifacts, n);
  }

  lemma MemoryStaysWithinCaps(t: Tables, active: bool, a: Action, now: Clock)
    requires MemoriesWithinCaps(t.memories) && WellShaped(a) && (a.Remember? || a.Forget?)
    requires ApplyAction(t, active, a, now).Ok?
    ensures MemoriesWithinCaps(ApplyAction(t, active, a, now).value.memories)
  {
    if a.Remember? {
      PutMemory(t.memories, a.id, Strip(a.content));
    } else {
      DropMemoryRow(t.memories, a.id);
    }
  }

  lemma ToolStaysWithinCaps(t: Tables, active: bool, a: Action, now: Clock)
    requires ToolsWithinCaps(t.tools) && WellShaped(a) && (a.UpsertTool? || a.DeleteTool?)
    requires ApplyAction(t, active, a, now).Ok?
    ensures ToolsWithinCaps(ApplyAction(t, active, a, now).value.tools)
  {
    if a.UpsertTool? {
      PutTool(t.tools, a.id, ApplyAction(t, active, a, now).value.tools[a.id]);
    } else {
      DropToolRow(t.tools, a.id);
    }
  }

  lemma ArtifactStaysWithinCaps(t: Tables, active: bool, a: Action, now: Clock)
    requires ArtifactsWithinCaps(t.artifacts) && WellShaped(a)
    requires a.CreateArtifact? || a.UpdateArtifact? || a.DeleteArtifact?
    requires ApplyAction(t, active, a, now).Ok?
    ensures ArtifactsWithinCaps(ApplyAction(t, active, a, now).value.artifacts)
  {
    if a.DeleteArtifact? {
      DropArtifactRow(t.artifacts, a.id);
    } else {
      PutArtifact(t.artifacts, a.id, ApplyAction(t, active, a, now).value.artifacts[a.id]);
    }
  }

  /** Well-shaped actions keep every count and every text within its cap. */
  lemma ActionStaysWithinCaps(t: Tables, active: bool, a: Action, now: Clock)
    requires WithinCaps(t) && WellShaped(a) && ApplyAction(t, active, a, now).Ok?
    ensures WithinCaps(ApplyAction(t, active, a, now).value)
  {
    OtherTablesKept(t, active, a, now);
    if a.Remember? || a.Forget? {
      MemoryStaysWithinCaps(t, active, a, now);
    } else if a.UpsertTool? || a.DeleteTool? {
      ToolStaysWithinCaps(t, active, a, now);
    } else if a.Scheduling? {
      EditStaysWithinCaps(t.schedules, active, a.op, now);
    } else if !a.SetGoal? && !a.SetMeasurement? {
      ArtifactStaysWithinCaps(t, active, a, now);
    }
  }

  /** So do the operator's edits. */
  lemma EditOfRowsStaysWithinCaps(t: Tables, e: UiEdit)
    requires WithinCaps(t) && ApplyEdit(t, e).Ok?
    ensures WithinCaps(ApplyEdit(t, e).value) && ApplyEdit(t, e).value.schedules == t.schedules
  {
    match e
    case EditMemory(id, content) => PutMemory(t.memories, id, Strip(content));
    case DropMemory(id) => DropMemoryRow(t.memories, id);
    case DropTool(id) => DropToolRow(t.tools, id);
    case DropArtifact(id) => DropArtifactRow(t.artifacts, id);
  }

  /** `a` writes to this table. */
  predicate WritesMemories(a: Action) { a.Remember? || a.Forget? }
  predicate WritesTools(a: Action) { a.UpsertTool? || a.DeleteTool? }
  predicate WritesArtifacts(a: Action) { a.CreateArtifact? || a.UpdateArtifact? || a.DeleteArtifact? }

  ghost predicate OnlyWritten(a: Action, t: Tables, t': Tables) {
    && (a.SetGoal? || t'.goal == t.goal)
    && (a.SetMeasurement? || t'.measurement == t.measurement)
    && (WritesMemories(a) || t'.memories == t.memories)
    && (WritesTools(a) || t'.tools == t.tools)
    && (WritesArtifacts(a) || t'.artifacts == t.artifacts)
    && (a.Scheduling? || t'.schedules == t.schedules)
  }

  lemma RowWritesKeepOthers(t: Tables, active: bool, a: Action, now: Clock)
    requires ApplyAction(t, active, a, now).Ok? && (WritesMemories(a) || WritesTools(a) || WritesArtifacts(a))
    ensures OnlyWritten(a, t, ApplyAction(t, active, a, now).value)
  {
  }

  /** An action writes to one table and leaves all others as they were. */
  lemma OtherTablesKept(t: Tables, active: bool, a: Action, now: Clock)
    requires ApplyAction(t, active, a, now).Ok?
    ensures OnlyWritten(a, t, ApplyAction(t, active, a, now).value)
  {
    if WritesMemories(a) || WritesTools(a) || WritesArtifacts(a) {
      RowWritesKeepOthers(t, active, a, now);
    }
  }

  /** In that table it writes to one row. */
  lemma OtherRowsKept(t: Tables, active: bool, a: Action, now: Clock, n: Name)
    requires ApplyAction(t, active, a, now).Ok? && !a.SetGoal? && !a.SetMeasurement?
    requires n != if a.Scheduling? then a.op.name else a.id
    ensures var t' := ApplyAction(t, active, a, now).value;
      && (n in t'.memories <==> n in t.memories) && (n in t.memories ==> t'.memories[n] == t.memories[n])
      && (n in t'.tools <==> n in t.tools) && (n in t.tools ==> t'.tools[n] == t.tools[n])
      && (n in t'.artifacts <==> n in t.artifacts) && (n in t.artifacts ==> t'.artifacts[n] == t.artifacts[n])
      && (n in t'.schedules <==> n in t.schedules) && (n in t.schedules ==> t'.schedules[n] == t.schedules[n])
  {
    OtherTablesKept(t, active, a, now);
  }
}
