/**
 * What an accepted action leaves to be read: which actions and edits are accepted,
 * by the rows and counts they find, what each one writes, and that in every run a
 * row reads as the last entry of the feed that touched it says.
 */
module AgentReadBack {
  import opened Prelude
  import opened ScheduleTiming
  import opened RunQueue
  import opened RunQueueInvariant
  import opened AgentTables
  import opened AgentActions
  import opened AgentActionsSafety
  import opened AgentJournal

  // ---------------------------------------------------------------------------
  // Shapes

  /** At most 48 characters: a letter, then letters, digits, dashes and underscores; no capitals. */
  predicate NameOk(s: string) {
    && 1 <= |s| <= 48 && 'a' <= s[0] <= 'z'
    && forall i :: 0 <= i < |s| ==> 'a' <= s[i] <= 'z' || '0' <= s[i] <= '9' || s[i] == '-' || s[i] == '_'
  }

  predicate Within(s: string, most: nat) {
    |s| <= most && !AllSpace(s)
  }

  predicate WithinIfGiven(s: Option<string>, most: nat) {
    s.Some? ==> Within(s.value, most)
  }

  /** The fields of an agent's action are within their bounds, and an update changes something. */
  predicate FieldsOk(a: Action) {
    match a
    case SetGoal(goal) => |goal| <= 500
    case SetMeasurement(measurement) => |measurement| <= 500
    case Remember(id, content) => NameOk(id) && Within(content, 300)
    case Forget(id) => NameOk(id)
    case UpsertTool(id, title, _, _, note) => NameOk(id) && Within(title, 120) && (note.Some? ==> |note.value| <= 200)
    case DeleteTool(id) => NameOk(id)
    case CreateArtifact(id, title, data, _) => NameOk(id) && Within(title, 120) && |data| <= 16_000
    case UpdateArtifact(id, title, data, view) =>
      && NameOk(id) && WithinIfGiven(title, 120) && (data.Some? ==> |data.value| <= 16_000)
      && !(title.None? && data.None? && view.None?)
    case DeleteArtifact(id) => NameOk(id)
    case Scheduling(Create(n, title, prompt, _)) => NameOk(n) && Within(title, 120) && Within(prompt, 4_000)
    case Scheduling(Update(n, title, prompt, cadence, enabled)) =>
      && NameOk(n) && WithinIfGiven(title, 120) && WithinIfGiven(prompt, 4_000)
      && !(title.None? && prompt.None? && cadence.None? && enabled.None?)
    case Scheduling(Delete(n)) => NameOk(n)
    case Scheduling(SetEnabled(_, _)) => false
  }

  lemma SlugIsName(s: string)
    ensures IsSlug(s) <==> NameOk(s)
  {
  }

  lemma TextIsWithin(s: string, most: nat)
    ensures TextOk(s, most) <==> Within(s, most)
  {
    StripIsExact(s);
    NothingIsLeftOfBlanks(s, Strip(s));
  }

  lemma OptionIsWithin(s: Option<string>, most: nat)
    ensures OptionalTextOk(s, most) <==> WithinIfGiven(s, most)
  {
    if s.Some? {
      TextIsWithin(s.value, most);
    }
  }

  /** An action passes the check of its shape exactly if its fields are within their bounds. */
  lemma ShapeIsExact(a: Action)
    ensures WellShaped(a) <==> FieldsOk(a)
  {
    match a
    case SetGoal(_) =>
    case SetMeasurement(_) =>
    case Remember(id, content) =>
      SlugIsName(id);
      TextIsWithin(content, 300);
    case UpsertTool(id, title, _, _, _) =>
      SlugIsName(id);
      TextIsWithin(title, 120);
    case CreateArtifact(id, title, _, _) =>
      SlugIsName(id);
      TextIsWithin(title, 120);
    case UpdateArtifact(id, title, _, _) =>
      SlugIsName(id);
      OptionIsWithin(title, 120);
    case Scheduling(Create(n, title, prompt, _)) =>
      SlugIsName(n);
      TextIsWithin(title, 120);
      TextIsWithin(prompt, 4_000);
    case Scheduling(Update(n, title, prompt, _, _)) =>
      SlugIsName(n);
      OptionIsWithin(title, 120);
      OptionIsWithin(prompt, 4_000);
    case Scheduling(op) => SlugIsName(op.name);
    case Forget(id) => SlugIsName(id);
    case DeleteTool(id) => SlugIsName(id);
    case DeleteArtifact(id) => SlugIsName(id);
  }

  // ---------------------------------------------------------------------------
  // Actions

  /** The rows and counts under which a well-shaped action is accepted. */
  predicate Accepted(t: Tables, active: bool, a: Action) {
    match a
    case SetGoal(_) => true
    case SetMeasurement(_) => true
    case Remember(id, _) => id in t.memories || |t.memories| < 40
    case Forget(id) => id in t.memories
    case UpsertTool(id, _, _, _, _) => id in t.tools || |t.tools| < 30
    case DeleteTool(id) => id in t.tools
    case CreateArtifact(id, _, _, _) => id !in t.artifacts && |t.artifacts| < 100
    case UpdateArtifact(id, _, _, _) => id in t.artifacts
    case DeleteArtifact(id) => id in t.artifacts
    case Scheduling(op) => ScheduleAccepted(t.schedules, active, op)
  }

  /** A one-shot that has run needs a new time before it can be switched on. */
  predicate ScheduleAccepted(schedules: map<Name, Schedule>, active: bool, op: ScheduleOp) {
    match op
    case Create(n, _, _, _) => n !in schedules && |schedules| < 20
    case Update(n, _, _, cadence, enabled) =>
      n in schedules
      && (cadence.Some? || schedules[n].everyMinutes.Some? || schedules[n].next.Some?
          || enabled == Some(false) || (enabled.None? && !schedules[n].enabled))
    case Delete(n) => n in schedules
    case SetEnabled(n, on) =>
      n in schedules && (on ==> active && (schedules[n].everyMinutes.Some? || schedules[n].next.Some?))
  }

  /** `next` is the whole second of a period from now, or the time asked for but not before now. */
  predicate FirstTime(cadence: Cadence, now: Clock, next: Option<int>) {
    next.Some?
    && match cadence
       case Every(minutes) =>
         next.value * 1_000_000 <= now + minutes * 60 * 1_000_000 < (next.value + 1) * 1_000_000
       case At(at) =>
         if at * 1_000_000 >= now then next.value == at else next.value * 1_000_000 <= now < (next.value + 1) * 1_000_000
  }

  predicate Given<V(==)>(given: Option<V>, before: V, value: V) {
    value == if given.Some? then given.value else before
  }

  ghost predicate GivenText(given: Option<string>, before: string, value: string) {
    if given.Some? then IsStripped(given.value, value) else value == before
  }

  /** What an accepted schedule operation leaves in its row. */
  ghost predicate ScheduleReadsBack(a: map<Name, Schedule>, op: ScheduleOp, now: Clock, b: map<Name, Schedule>) {
    match op
    case Create(n, title, prompt, cadence) =>
      && n in b && IsStripped(title, b[n].title) && IsStripped(prompt, b[n].prompt)
      && b[n].enabled && b[n].lastRun.None? && FirstTime(cadence, now, b[n].next)
      && b[n].everyMinutes == if cadence.Every? then Some(cadence.minutes) else None
    case Update(n, title, prompt, cadence, enabled) =>
      && n in a && n in b && GivenText(title, a[n].title, b[n].title) && GivenText(prompt, a[n].prompt, b[n].prompt)
      && b[n].lastRun == a[n].lastRun
      && (cadence.None? ==> b[n].everyMinutes == a[n].everyMinutes && b[n].next == a[n].next)
      && (cadence.Some? ==>
            && FirstTime(cadence.value, now, b[n].next)
            && b[n].everyMinutes == if cadence.value.Every? then Some(cadence.value.minutes) else None)
      && b[n].enabled == (if enabled.Some? then enabled.value else a[n].enabled || (cadence.Some? && cadence.value.At?))
    case Delete(n) => n !in b
    case SetEnabled(n, on) =>
      && n in a && n in b && b[n].enabled == on
      && (on && !a[n].enabled && a[n].everyMinutes.Some? ==> FirstTime(Every(a[n].everyMinutes.value), now, b[n].next))
      && (!on || a[n].enabled || a[n].everyMinutes.None? ==> b[n].next == a[n].next)
      && b[n] == a[n].(enabled := b[n].enabled, next := b[n].next, anchor := b[n].anchor)
  }

  /** What an accepted action leaves in its row. */
  ghost predicate ReadsBack(t: Tables, a: Action, now: Clock, t': Tables) {
    match a
    case SetGoal(goal) => IsStripped(goal, t'.goal)
    case SetMeasurement(measurement) => IsStripped(measurement, t'.measurement)
    case Remember(id, content) => id in t'.memories && IsStripped(content, t'.memories[id])
    case Forget(id) => id !in t'.memories
    case UpsertTool(id, title, priority, availability, note) =>
      && id in t'.tools && IsStripped(title, t'.tools[id].title)
      && t'.tools[id].priority == priority && t'.tools[id].availability == availability
      && IsStripped(if note.Some? then note.value else "", t'.tools[id].note)
    case DeleteTool(id) => id !in t'.tools
    case CreateArtifact(id, title, data, view) =>
      && id in t'.artifacts && IsStripped(title, t'.artifacts[id].title)
      && t'.artifacts[id].data == data && t'.artifacts[id].view == view
    case UpdateArtifact(id, title, data, view) =>
      && id in t.artifacts && id in t'.artifacts && GivenText(title, t.artifacts[id].title, t'.artifacts[id].title)
      && Given(data, t.artifacts[id].data, t'.artifacts[id].data) && Given(view, t.artifacts[id].view, t'.artifacts[id].view)
    case DeleteArtifact(id) => id !in t'.artifacts
    case Scheduling(op) => ScheduleReadsBack(t.schedules, op, now, t'.schedules)
  }

  /** All tables but the action's own, and all rows but its own, are as they were. */
  ghost predicate LeavesTheRest(t: Tables, a: Action, t': Tables) {
    && OnlyWritten(a, t, t')
    && (WritesMemories(a) ==> OthersSame(t.memories, t'.memories, a.id))
    && (WritesTools(a) ==> OthersSame(t.tools, t'.tools, a.id))
    && (WritesArtifacts(a) ==> OthersSame(t.artifacts, t'.artifacts, a.id))
    && (a.Scheduling? ==> OthersSame(t.schedules, t'.schedules, a.op.name))
  }

  ghost predicate OthersSame<V>(a: map<Name, V>, b: map<Name, V>, id: Name) {
    forall n :: n != id ==> (n in a <==> n in b) && (n in a && n in b ==> a[n] == b[n])
  }

  lemma FirstTimeIs(cadence: Cadence, now: Clock)
    ensures FirstTime(cadence, now, Some(InitialNextRun(cadence, now)))
  {
  }

  lemma EditIsAccepted(schedules: map<Name, Schedule>, active: bool, op: ScheduleOp, now: Clock)
    ensures EditedSchedules(schedules, active, StrippedOp(op), now).Ok? <==> ScheduleAccepted(schedules, active, op)
  {
  }

  lemma UpdateIsWritten(schedules: map<Name, Schedule>, active: bool, op: ScheduleOp, now: Clock)
    requires op.Update? && ScheduleAccepted(schedules, active, op)
    requires EditedSchedules(schedules, active, StrippedOp(op), now).Ok?
    ensures ScheduleReadsBack(schedules, op, now, EditedSchedules(schedules, active, StrippedOp(op), now).value)
  {
    if op.newCadence.Some? { FirstTimeIs(op.newCadence.value, now); }
    if op.newTitle.Some? { StripIsExact(op.newTitle.value); }
    if op.newPrompt.Some? { StripIsExact(op.newPrompt.value); }
  }

  lemma ScheduleIsEdited(schedules: map<Name, Schedule>, active: bool, op: ScheduleOp, now: Clock)
    ensures EditedSchedules(schedules, active, StrippedOp(op), now).Ok? <==> ScheduleAccepted(schedules, active, op)
    ensures ScheduleAccepted(schedules, active, op) ==>
      ScheduleReadsBack(schedules, op, now, EditedSchedules(schedules, active, StrippedOp(op), now).value)
  {
    EditIsAccepted(schedules, active, op, now);
    if ScheduleAccepted(schedules, active, op) {
      match op
      case Create(_, title, prompt, cadence) =>
        FirstTimeIs(cadence, now);
        StripIsExact(title);
        StripIsExact(prompt);
      case Update(_, _, _, _, _) => UpdateIsWritten(schedules, active, op, now);
      case Delete(_) =>
      case SetEnabled(n, _) =>
        if schedules[n].everyMinutes.Some? { FirstTimeIs(Every(schedules[n].everyMinutes.value), now); }
    }
  }

  lemma RowIsWritten(t: Tables, active: bool, a: Action, now: Clock)
    requires !a.Scheduling?
    ensures ApplyAction(t, active, a, now).Ok? <==> Accepted(t, active, a)
    ensures Accepted(t, active, a) ==> ReadsBack(t, a, now, ApplyAction(t, active, a, now).value)
  {
    match a
    case SetGoal(goal) => StripIsExact(goal);
    case SetMeasurement(measurement) => StripIsExact(measurement);
    case Remember(_, content) => StripIsExact(content);
    case UpsertTool(_, title, _, _, note) =>
      StripIsExact(title);
      StripIsExact(if note.Some? then note.value else "");
    case CreateArtifact(_, title, _, _) => StripIsExact(title);
    case UpdateArtifact(_, title, _, _) => if title.Some? { StripIsExact(title.value); }
    case _ =>
  }

  lemma OtherRowsLeft(t: Tables, active: bool, a: Action, now: Clock, id: Name)
    requires ApplyAction(t, active, a, now).Ok? && !a.SetGoal? && !a.SetMeasurement?
    requires id == if a.Scheduling? then a.op.name else a.id
    ensures var t' := ApplyAction(t, active, a, now).value;
      && OthersSame(t.memories, t'.memories, id) && OthersSame(t.tools, t'.tools, id)
      && OthersSame(t.artifacts, t'.artifacts, id) && OthersSame(t.schedules, t'.schedules, id)
  {
    forall n | n != id
      ensures var t' := ApplyAction(t, active, a, now).value;
        && (n in t'.memories <==> n in t.memories) && (n in t.memories ==> t'.memories[n] == t.memories[n])
        && (n in t'.tools <==> n in t.tools) && (n in t.tools ==> t'.tools[n] == t.tools[n])
        && (n in t'.artifacts <==> n in t.artifacts) && (n in t.artifacts ==> t'.artifacts[n] == t.artifacts[n])
        && (n in t'.schedules <==> n in t.schedules) && (n in t.schedules ==> t'.schedules[n] == t.schedules[n])
    {
      OtherRowsKept(t, active, a, now, n);
    }
  }

  lemma RestIsLeft(t: Tables, active: bool, a: Action, now: Clock, t': Tables)
    requires ApplyAction(t, active, a, now) == Ok(t')
    ensures LeavesTheRest(t, a, t')
  {
    OtherTablesKept(t, active, a, now);
    if !a.SetGoal? && !a.SetMeasurement? {
      OtherRowsLeft(t, active, a, now, if a.Scheduling? then a.op.name else a.id);
    }
  }

  /**
   * A well-shaped action is accepted exactly under its rows and counts. Then its
   * row reads back what it wrote, and all other rows and tables are as before.
   */
  lemma ActionReadsBack(t: Tables, active: bool, a: Action, now: Clock)
    ensures ApplyAction(t, active, a, now).Ok? <==> Accepted(t, active, a)
    ensures Accepted(t, active, a) ==>
      ReadsBack(t, a, now, ApplyAction(t, active, a, now).value) && LeavesTheRest(t, a, ApplyAction(t, active, a, now).value)
  {
    if a.Scheduling? {
      ScheduleIsEdited(t.schedules, active, a.op, now);
    } else {
      RowIsWritten(t, active, a, now);
    }
    if Accepted(t, active, a) {
      RestIsLeft(t, active, a, now, ApplyAction(t, active, a, now).value);
    }
  }

  /** Why an action is refused: its row is missing, or is there already, or the table is full. */
  lemma RefusalTellsWhy(t: Tables, active: bool, a: Action, now: Clock)
    requires !Accepted(t, active, a) && !a.Scheduling?
    ensures ApplyAction(t, active, a, now) == Error(
      if a.Remember? || a.UpsertTool? then LimitReached
      else if a.CreateArtifact? then (if a.id in t.artifacts then Exists else LimitReached)
      else DoesNotExist)
  {
  }

  // ---------------------------------------------------------------------------
  // The operator's edits

  /** The rows under which an edit is accepted. */
  ghost predicate EditAccepted(t: Tables, e: UiEdit) {
    match e
    case EditMemory(id, content) =>
      id in t.memories && exists text :: IsStripped(content, text) && 0 < |text| <= 300
    case DropMemory(id) => id in t.memories
    case DropTool(id) => id in t.tools
    case DropArtifact(id) => id in t.artifacts
  }

  ghost predicate EditReadsBack(t: Tables, e: UiEdit, t': Tables) {
    match e
    case EditMemory(id, content) =>
      && id in t'.memories && IsStripped(content, t'.memories[id])
      && OthersSame(t.memories, t'.memories, id) && t' == t.(memories := t'.memories)
    case DropMemory(id) =>
      id !in t'.memories && OthersSame(t.memories, t'.memories, id) && t' == t.(memories := t'.memories)
    case DropTool(id) =>
      id !in t'.tools && OthersSame(t.tools, t'.tools, id) && t' == t.(tools := t'.tools)
    case DropArtifact(id) =>
      id !in t'.artifacts && OthersSame(t.artifacts, t'.artifacts, id) && t' == t.(artifacts := t'.artifacts)
  }

  /** The visible part of `s` lies from `i` up to `j`. */
  predicate IsVisible(s: string, i: nat, j: nat) {
    && i < j <= |s| && !IsSpace(s[i]) && !IsSpace(s[j - 1])
    && (forall k :: 0 <= k < i ==> IsSpace(s[k])) && (forall k :: j <= k < |s| ==> IsSpace(s[k]))
  }

  lemma WhereItIsVisible(s: string, t: string) returns (i: nat, j: nat)
    requires IsStripped(s, t) && t != ""
    ensures IsVisible(s, i, j) && t == s[i..j]
  {
    var left, right :| AllSpace(left) && AllSpace(right) && s == left + t + right;
    i, j := |left|, |left| + |t|;
    assert forall k :: 0 <= k < i ==> s[k] == left[k];
    assert forall k :: j <= k < |s| ==> s[k] == right[k - j];
  }

  /** There is only one way to strip a text. */
  lemma StrippedIsOne(s: string, a: string, b: string)
    requires IsStripped(s, a) && IsStripped(s, b)
    ensures a == b
  {
    NothingIsLeftOfBlanks(s, a);
    NothingIsLeftOfBlanks(s, b);
    if a != "" {
      var i, j := WhereItIsVisible(s, a);
      var k, l := WhereItIsVisible(s, b);
      assert i == k && j == l;
    }
  }

  /** An operator's edit is accepted exactly under its rows; then it reads back, and the rest is as before. */
  lemma EditIsWritten(t: Tables, e: UiEdit)
    ensures ApplyEdit(t, e).Ok? <==> EditAccepted(t, e)
    ensures EditAccepted(t, e) ==> EditReadsBack(t, e, ApplyEdit(t, e).value)
  {
    if e.EditMemory? {
      StripIsExact(e.content);
      forall text | IsStripped(e.content, text) ensures text == Strip(e.content) {
        StrippedIsOne(e.content, text, Strip(e.content));
      }
    }
  }

  // ---------------------------------------------------------------------------
  // The last word on a row

  datatype Part = TheGoal | TheMeasurement | Memory(id: Name) | ToolOf(id: Name) | ArtifactOf(id: Name)

  /** An entry of the feed that writes this part of the tables. */
  predicate Touches(row: Entry, part: Part) {
    match row
    case Applied(_, a, _) =>
      (match part
       case TheGoal => a.SetGoal?
       case TheMeasurement => a.SetMeasurement?
       case Memory(id) => WritesMemories(a) && a.id == id
       case ToolOf(id) => WritesTools(a) && a.id == id
       case ArtifactOf(id) => WritesArtifacts(a) && a.id == id)
    case Edited(e) =>
      (match part
       case Memory(id) => (e.EditMemory? || e.DropMemory?) && e.id == id
       case ToolOf(id) => e.DropTool? && e.id == id
       case ArtifactOf(id) => e.DropArtifact? && e.id == id
       case _ => false)
    case _ => false
  }

  /** What such an entry says about the row it touches. */
  ghost predicate Says(row: Entry, t: Tables) {
    match row
    case Applied(_, a, _) =>
      (match a
       case SetGoal(goal) => IsStripped(goal, t.goal)
       case SetMeasurement(measurement) => IsStripped(measurement, t.measurement)
       case Remember(id, content) => id in t.memories && IsStripped(content, t.memories[id])
       case Forget(id) => id !in t.memories
       case UpsertTool(id, title, priority, availability, note) =>
         && id in t.tools && IsStripped(title, t.tools[id].title) && t.tools[id].priority == priority
         && t.tools[id].availability == availability
         && IsStripped(if note.Some? then note.value else "", t.tools[id].note)
       case DeleteTool(id) => id !in t.tools
       case CreateArtifact(id, title, data, view) =>
         && id in t.artifacts && IsStripped(title, t.artifacts[id].title)
         && t.artifacts[id].data == data && t.artifacts[id].view == view
       case UpdateArtifact(id, title, data, view) =>
         && id in t.artifacts
         && (title.Some? ==> IsStripped(title.value, t.artifacts[id].title))
         && (data.Some? ==> t.artifacts[id].data == data.value)
         && (view.Some? ==> t.artifacts[id].view == view.value)
       case DeleteArtifact(id) => id !in t.artifacts
       case Scheduling(_) => true)
    case Edited(EditMemory(id, content)) => id in t.memories && IsStripped(content, t.memories[id])
    case Edited(DropMemory(id)) => id !in t.memories
    case Edited(DropTool(id)) => id !in t.tools
    case Edited(DropArtifact(id)) => id !in t.artifacts
    case _ => true
  }

  /** This part of the tables is the same in both. */
  predicate SamePart(t: Tables, t': Tables, part: Part) {
    match part
    case TheGoal => t'.goal == t.goal
    case TheMeasurement => t'.measurement == t.measurement
    case Memory(id) => (id in t'.memories <==> id in t.memories) && (id in t.memories ==> t'.memories[id] == t.memories[id])
    case ToolOf(id) => (id in t'.tools <==> id in t.tools) && (id in t.tools ==> t'.tools[id] == t.tools[id])
    case ArtifactOf(id) =>
      (id in t'.artifacts <==> id in t.artifacts) && (id in t.artifacts ==> t'.artifacts[id] == t.artifacts[id])
  }

  /** A part that nothing has touched. */
  predicate IsBlank(t: Tables, part: Part) {
    match part
    case TheGoal => t.goal == ""
    case TheMeasurement => t.measurement == ""
    case Memory(id) => id !in t.memories
    case ToolOf(id) => id !in t.tools
    case ArtifactOf(id) => id !in t.artifacts
  }

  /** From entry `k` on no entry touches the part. */
  predicate UntouchedFrom(feed: seq<Entry>, k: nat, part: Part) {
    forall l :: k <= l < |feed| ==> !Touches(feed[l], part)
  }

  /** The part reads as the last entry that touched it says. */
  ghost predicate ReadsAsLast(feed: seq<Entry>, t: Tables, part: Part) {
    && (UntouchedFrom(feed, 0, part) ==> IsBlank(t, part))
    && (forall k :: 0 <= k < |feed| && Touches(feed[k], part) && UntouchedFrom(feed, k + 1, part) ==> Says(feed[k], t))
  }

  lemma SaysStays(row: Entry, t: Tables, t': Tables, part: Part)
    requires Touches(row, part) && Says(row, t) && SamePart(t, t', part)
    ensures Says(row, t')
  {
  }

  lemma WrittenSays(task: nat, a: Action, at: Clock, t: Tables, t': Tables)
    requires ReadsBack(t, a, at, t')
    ensures Says(Applied(task, a, at), t')
  {
  }

  lemma RestIsSame(task: nat, a: Action, at: Clock, t: Tables, t': Tables, part: Part)
    requires LeavesTheRest(t, a, t') && !Touches(Applied(task, a, at), part)
    ensures SamePart(t, t', part)
  {
  }

  lemma AppliedSays(t: Tables, active: bool, task: nat, a: Action, at: Clock, t': Tables, part: Part)
    requires ApplyAction(t, active, a, at) == Ok(t')
    ensures Says(Applied(task, a, at), t')
    ensures !Touches(Applied(task, a, at), part) ==> SamePart(t, t', part)
  {
    ActionReadsBack(t, active, a, at);
    WrittenSays(task, a, at, t, t');
    if !Touches(Applied(task, a, at), part) {
      RestIsSame(task, a, at, t, t', part);
    }
  }

  lemma EditedSays(t: Tables, e: UiEdit, t': Tables)
    requires ApplyEdit(t, e) == Ok(t')
    ensures Says(Edited(e), t')
    ensures forall part: Part :: !Touches(Edited(e), part) ==> SamePart(t, t', part)
  {
    EditIsWritten(t, e);
  }

  lemma RowSays(w: World, row: Entry, part: Part)
    requires Truthful(w, FromRow(row))
    ensures Touches(row, part) ==> Says(row, After(w, FromRow(row)).tables)
    ensures !Touches(row, part) ==> SamePart(w.tables, After(w, FromRow(row)).tables, part)
  {
    match row
    case Applied(task, a, at) =>
      AppliedSays(w.tables, IsActive(w.queue), task, a, at, After(w, FromRow(row)).tables, part);
    case Edited(e) => EditedSays(w.tables, e, After(w, FromRow(row)).tables);
    case _ =>
  }

  lemma NothingAdded(feed: seq<Entry>, t: Tables, t': Tables, part: Part)
    requires ReadsAsLast(feed, t, part) && SamePart(t, t', part)
    ensures ReadsAsLast(feed, t', part)
  {
    forall k | 0 <= k < |feed| && Touches(feed[k], part) && UntouchedFrom(feed, k + 1, part)
      ensures Says(feed[k], t')
    {
      SaysStays(feed[k], t, t', part);
    }
  }

  lemma OneAdded(feed: seq<Entry>, row: Entry, t: Tables, t': Tables, part: Part)
    requires ReadsAsLast(feed, t, part)
    requires Touches(row, part) ==> Says(row, t')
    requires !Touches(row, part) ==> SamePart(t, t', part)
    ensures ReadsAsLast(feed + [row], t', part)
  {
    var feed' := feed + [row];
    assert feed'[|feed|] == row;
    assert forall l :: 0 <= l < |feed| ==> feed'[l] == feed[l];
    if !Touches(row, part) {
      assert forall k: nat :: UntouchedFrom(feed', k, part) ==> UntouchedFrom(feed, k, part);
      NothingAdded(feed, t, t', part);
    }
  }

  /** A step that adds no row changes no part; one that adds a row is explained by it. */
  lemma StepAddsARow(s: Engine, e: EngineEvent, s': Engine, row: Entry)
    requires EngineEnabled(s, e) && s' == EngineStep(s, e) && !e.OnQueue?
    requires |s'.agent.feed| > |s.agent.feed| && row == s'.agent.feed[|s.agent.feed|]
    ensures s'.agent.feed == s.agent.feed + [row]
    ensures Truthful(WorldOf(s), FromRow(row)) && WorldOf(s') == After(WorldOf(s), FromRow(row))
  {
    StepIsExplained(s, e);
    var more := [FromRow(row)];
    assert EffectOf(e, s.agent.feed, s'.agent.feed) == more;
    assert more[..0] == [] && Rows(more) == [row];
  }

  lemma StepReadsAsLast(s: Engine, e: EngineEvent, s': Engine, part: Part)
    requires EngineEnabled(s, e) && s' == EngineStep(s, e) && ReadsAsLast(s.agent.feed, TablesOf(s), part)
    ensures ReadsAsLast(s'.agent.feed, TablesOf(s'), part)
  {
    if e.OnQueue? || |s'.agent.feed| <= |s.agent.feed| {
      OthersKeepParts(s, e, s', part);
      NothingAdded(s.agent.feed, TablesOf(s), TablesOf(s'), part);
    } else {
      var row := s'.agent.feed[|s.agent.feed|];
      StepAddsARow(s, e, s', row);
      RowSays(WorldOf(s), row, part);
      RowIsAdded(s, s', row, part);
    }
  }

  lemma RowIsAdded(s: Engine, s': Engine, row: Entry, part: Part)
    requires ReadsAsLast(s.agent.feed, TablesOf(s), part) && s'.agent.feed == s.agent.feed + [row]
    requires Touches(row, part) ==> Says(row, WorldOf(s').tables)
    requires !Touches(row, part) ==> SamePart(WorldOf(s).tables, WorldOf(s').tables, part)
    ensures ReadsAsLast(s'.agent.feed, TablesOf(s'), part)
  {
    OneAdded(s.agent.feed, row, TablesOf(s), TablesOf(s'), part);
  }

  lemma OthersKeepParts(s: Engine, e: EngineEvent, s': Engine, part: Part)
    requires EngineEnabled(s, e) && s' == EngineStep(s, e)
    requires e.OnQueue? || |s'.agent.feed| <= |s.agent.feed|
    ensures s'.agent.feed == s.agent.feed && SamePart(TablesOf(s), TablesOf(s'), part)
  {
    StepIsExplained(s, e);
    if e.OnQueue? {
      QueueIsExplained(s, e.e);
    }
  }

  lemma NextReadsAsLast(states: seq<Engine>, events: seq<EngineEvent>, i: nat, part: Part)
    requires EngineExecution(states, events) && i < |events|
    requires ReadsAsLast(states[i].agent.feed, TablesOf(states[i]), part)
    ensures ReadsAsLast(states[i + 1].agent.feed, TablesOf(states[i + 1]), part)
  {
    StepReadsAsLast(states[i], events[i], states[i + 1], part);
  }

  /**
   * In every run the goal, the measurement and every memory, tool and artifact
   * read as the last entry of the feed that touched them says, an agent's action or
   * an operator's edit; and what nothing has touched is not there.
   */
  lemma {:induction false} LastWordCounts(states: seq<Engine>, events: seq<EngineEvent>, i: nat, part: Part)
    requires EngineExecution(states, events) && i < |states|
    ensures ReadsAsLast(states[i].agent.feed, TablesOf(states[i]), part)
  {
    if i > 0 {
      LastWordCounts(states, events, i - 1, part);
      NextReadsAsLast(states, events, i - 1, part);
    }
  }

  // ---------------------------------------------------------------------------
  // A whole call

  lemma CallIsCounted(s: Engine, thread: nat, task: nat, s': Engine)
    requires EngineEnabled(s, Route(thread, task))
    requires var routed := EngineStep(s, Route(thread, task));
      EngineEnabled(routed, Count(task)) && s' == EngineStep(routed, Count(task))
    ensures var used := Used(s.agent.budget, task);
      && Used(s'.agent.budget, task) == (if used <= 16 then used + 1 else used)
      && s' == s.(agent := s.agent.(budget := s'.agent.budget, calls := s'.agent.calls))
      && s'.agent.calls == (if used < 16 then s.agent.calls + multiset{Counted(task)}
                            else if used == 16 then s.agent.calls + multiset{Sentinel(task)}
                            else s.agent.calls)
  {
    assert s.agent.calls + multiset{Routed(task)} - multiset{Routed(task)} == s.agent.calls;
  }

  /** Row `run` is active with this task, on the workspace's present thread. */
  predicate IsTheActiveTurn(q: Queue, run: nat, thread: nat, task: nat) {
    && q.workspace.Some? && thread == q.workspace.value.threadSeq && run < |q.runs|
    && q.runs[run].phase.Active? && q.runs[run].task == Some(task) && q.runs[run].thread == Some(thread)
  }

  lemma TurnMayAct(q: Queue, run: nat, thread: nat, task: nat)
    requires IsTheActiveTurn(q, run, thread, task)
    ensures RoutesTo(q, thread, task)
  {
    assert Runs(q.runs[run], task);
  }

  /**
   * One more row stands in the feed: applied exactly if the action is well-shaped and
   * accepted, and then it reads back; otherwise rejected, and no table has changed.
   */
  ghost predicate IsJournaled(t: Tables, active: bool, feed: seq<Entry>, task: nat, a: Action, now: Clock,
                              t': Tables, feed': seq<Entry>)
  {
    if WellShaped(a) && Accepted(t, active, a) then
      feed' == feed + [Applied(task, a, now)] && ReadsBack(t, a, now, t') && LeavesTheRest(t, a, t')
    else
      feed' == feed + [Rejected(task, a, now)] && t' == t
  }

  /**
   * A call of the active turn on the current thread, without interruption: while
   * fewer than sixteen units are spent its action is journaled,
   */
  lemma CallIsAnswered(s: Engine, run: nat, thread: nat, task: nat, a: Action, now: Clock)
    returns (routed: Engine, counted: Engine, s': Engine)
    requires IsTheActiveTurn(s.queue, run, thread, task) && Used(s.agent.budget, task) < 16
    ensures EngineEnabled(s, Route(thread, task)) && routed == EngineStep(s, Route(thread, task))
    ensures EngineEnabled(routed, Count(task)) && counted == EngineStep(routed, Count(task))
    ensures EngineEnabled(counted, Write(task, a, now, true)) && s' == EngineStep(counted, Write(task, a, now, true))
    ensures s'.agent.calls == s.agent.calls && Used(s'.agent.budget, task) == Used(s.agent.budget, task) + 1
    ensures IsJournaled(TablesOf(s), IsActive(s.queue), s.agent.feed, task, a, now, TablesOf(s'), s'.agent.feed)
  {
    TurnMayAct(s.queue, run, thread, task);
    routed := EngineStep(s, Route(thread, task));
    counted := EngineStep(routed, Count(task));
    CallIsCounted(s, thread, task, counted);
    s' := EngineStep(counted, Write(task, a, now, true));
    WriteIsAnswered(counted, task, a, now, s.agent.calls, s');
  }

  /** the next call leaves one exhaustion row and writes nothing, */
  lemma ExhaustingCallIsRecorded(s: Engine, run: nat, thread: nat, task: nat)
    returns (routed: Engine, counted: Engine, s': Engine)
    requires IsTheActiveTurn(s.queue, run, thread, task) && Used(s.agent.budget, task) == 16
    ensures EngineEnabled(s, Route(thread, task)) && routed == EngineStep(s, Route(thread, task))
    ensures EngineEnabled(routed, Count(task)) && counted == EngineStep(routed, Count(task))
    ensures EngineEnabled(counted, WriteSentinel(task, true)) && s' == EngineStep(counted, WriteSentinel(task, true))
    ensures s'.agent.calls == s.agent.calls && Used(s'.agent.budget, task) == 17
    ensures s'.agent.feed == s.agent.feed + [Exhausted(task)] && TablesOf(s') == TablesOf(s)
  {
    TurnMayAct(s.queue, run, thread, task);
    routed := EngineStep(s, Route(thread, task));
    counted := EngineStep(routed, Count(task));
    CallIsCounted(s, thread, task, counted);
    s' := EngineStep(counted, WriteSentinel(task, true));
    assert counted.agent.calls - multiset{Sentinel(task)} == s.agent.calls;
  }

  /** and further ones are refused without a trace. */
  lemma ExhaustedCallIsRefused(s: Engine, run: nat, thread: nat, task: nat)
    requires IsTheActiveTurn(s.queue, run, thread, task) && Used(s.agent.budget, task) > 16
    ensures EngineEnabled(s, Route(thread, task)) && EngineEnabled(EngineStep(s, Route(thread, task)), Count(task))
    ensures var s' := EngineStep(EngineStep(s, Route(thread, task)), Count(task));
      s'.agent.calls == s.agent.calls && s'.agent.feed == s.agent.feed && TablesOf(s') == TablesOf(s)
  {
    TurnMayAct(s.queue, run, thread, task);
    CallIsCounted(s, thread, task, EngineStep(EngineStep(s, Route(thread, task)), Count(task)));
  }

  /** A sentinel write that fails gives its mark back, so that the next refused call writes the row. */
  lemma FailedSentinelIsTakenBack(s: Engine, task: nat, failed: Engine, s': Engine)
    requires Sentinel(task) in s.agent.calls && Used(s.agent.budget, task) == 17
    requires failed == EngineStep(s, WriteSentinel(task, false))
    requires EngineEnabled(failed, TakeBack(task)) ==> s' == EngineStep(failed, TakeBack(task))
    ensures EngineEnabled(failed, TakeBack(task))
    ensures Used(s'.agent.budget, task) == 16 && s'.agent.feed == s.agent.feed && TablesOf(s') == TablesOf(s)
    ensures s'.agent.calls == s.agent.calls - multiset{Sentinel(task)}
  {
  }

  lemma WriteIsAnswered(s: Engine, task: nat, a: Action, now: Clock, rest: multiset<Call>, s': Engine)
    requires HasAuthority(s.queue, task) && s.agent.calls == rest + multiset{Counted(task)}
    requires s' == EngineStep(s, Write(task, a, now, true))
    ensures s'.agent.calls == rest && s'.agent.budget == s.agent.budget
    ensures IsJournaled(TablesOf(s), IsActive(s.queue), s.agent.feed, task, a, now, TablesOf(s'), s'.agent.feed)
  {
    assert rest + multiset{Counted(task)} - multiset{Counted(task)} == rest;
    var flown := WithCalls(s, s.agent.calls - multiset{Counted(task)});
    RecordedIs(flown, task, a, now, Judged(TablesOf(flown), IsActive(flown.queue), a, now));
    ActionReadsBack(TablesOf(s), IsActive(s.queue), a, now);
  }
}
