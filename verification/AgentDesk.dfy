/** The agent API of the engine as it runs: tables and budget updated in place. */
module AgentDesk {
  import opened Prelude
  import opened RunQueue
  import opened AgentTables
  import opened AgentActions

  class Desk {
    var goal: string
    var measurement: string
    var memories: map<Name, string>
    var tools: map<Name, Tool>
    var artifacts: map<Name, Artifact>
    var schedules: map<Name, Schedule>
    var feed: seq<Entry>
    var budget: map<nat, nat>

    ghost function View(): Tables
      reads this
    {
      Tables(goal, measurement, memories, tools, artifacts, schedules)
    }

    constructor ()
      ensures View() == Tables("", "", map[], map[], map[], map[]) && WithinCaps(View())
      ensures feed == [] && budget == map[]
    {
      goal, measurement, memories, tools, artifacts, schedules := "", "", map[], map[], map[], map[];
      feed, budget := [], map[];
    }

    /** The section under the budget lock. */
    method TakeUnit(task: nat) returns (verdict: Verdict)
      modifies this`budget
      ensures (budget, verdict) == TakeBudget(old(budget), task)
    {
      var used := if task in budget then budget[task] else 0;
      if used >= MAX_ACTIONS_PER_TURN + 1 {
        return Refuse;
      }
      budget := budget[task := used + 1];
      return if used == MAX_ACTIONS_PER_TURN then RecordExhaustion else Proceed;
    }

    /** After a failed sentinel write. */
    method TakeBackMark(task: nat)
      modifies this`budget
      ensures budget == TakeBackSentinel(old(budget), task)
    {
      if task in budget && budget[task] == MAX_ACTIONS_PER_TURN + 1 {
        budget := budget[task := MAX_ACTIONS_PER_TURN];
      }
    }

    method ForgetTask(task: nat)
      modifies this`budget
      ensures budget == old(budget) - {task}
    {
      budget := budget - {task};
    }

    /**
     * The write of one action inside a savepoint: on an error everything it
     * wrote is rolled back, and only the rejection row is committed.
     */
    method ApplyOrReject(task: nat, a: Action, active: bool, now: Clock) returns (r: Result<(), Rejection>)
      modifies this
      ensures budget == old(budget)
      ensures WellShaped(a) && ApplyAction(old(View()), active, a, now).Ok? ==>
        r == Ok(()) && View() == ApplyAction(old(View()), active, a, now).value && feed == old(feed) + [Applied(task, a, now)]
      ensures !(WellShaped(a) && ApplyAction(old(View()), active, a, now).Ok?) ==>
        r.Error? && View() == old(View()) && feed == old(feed) + [Rejected(task, a, now)]
    {
      if !WellShaped(a) {
        feed := feed + [Rejected(task, a, now)];
        return Error(Shape);
      }
      r := ApplyInPlace(a, active, now);
      if r.Error? {
        feed := feed + [Rejected(task, a, now)];
      } else {
        feed := feed + [Applied(task, a, now)];
      }
    }

    method ApplyInPlace(a: Action, active: bool, now: Clock) returns (r: Result<(), Rejection>)
      modifies this`goal, this`measurement, this`memories, this`tools, this`artifacts, this`schedules
      ensures match ApplyAction(old(View()), active, a, now)
              case Ok(t) => r == Ok(()) && View() == t
              case Error(e) => r == Error(e) && View() == old(View())
    {
      match a {
        case SetGoal(g) => goal := Strip(g);
        case SetMeasurement(m) => measurement := Strip(m);
        case Remember(id, content) =>
          if id !in memories && |memories| >= MAX_MEMORIES {
            return Error(LimitReached);
          }
          memories := memories[id := Strip(content)];
        case Forget(id) =>
          if id !in memories {
            return Error(DoesNotExist);
          }
          memories := memories - {id};
        case UpsertTool(id, title, priority, availability, note) =>
          if id !in tools && |tools| >= MAX_TOOLS {
            return Error(LimitReached);
          }
          tools := tools[id := Tool(Strip(title), priority, availability, if note.Some? then Strip(note.value) else "")];
        case DeleteTool(id) =>
          if id !in tools {
            return Error(DoesNotExist);
          }
          tools := tools - {id};
        case CreateArtifact(id, title, data, view) =>
          if id in artifacts {
            return Error(Exists);
          }
          if |artifacts| >= MAX_ARTIFACTS {
            return Error(LimitReached);
          }
          artifacts := artifacts[id := Artifact(Strip(title), data, view)];
        case UpdateArtifact(id, title, data, view) =>
          if id !in artifacts {
            return Error(DoesNotExist);
          }
          var row := artifacts[id];
          if title.Some? {
            row := row.(title := Strip(title.value));
          }
          if data.Some? {
            row := row.(data := data.value);
          }
          if view.Some? {
            row := row.(view := view.value);
          }
          artifacts := artifacts[id := row];
        case DeleteArtifact(id) =>
          if id !in artifacts {
            return Error(DoesNotExist);
          }
          artifacts := artifacts - {id};
        case Scheduling(op) =>
          var edited := EditedSchedules(schedules, active, StrippedOp(op), now);
          if edited.Error? {
            return Error(Refused(edited.error));
          }
          schedules := edited.value;
      }
      return Ok(());
    }

    /** The operator's edit of a memory, or removal of a row. */
    method EditRow(edit: UiEdit) returns (r: Result<(), Rejection>)
      modifies this`memories, this`tools, this`artifacts, this`feed
      ensures match ApplyEdit(old(View()), edit)
              case Ok(t) => r == Ok(()) && View() == t && feed == old(feed) + [Edited(edit)]
              case Error(e) => r == Error(e) && View() == old(View()) && feed == old(feed)
    {
      match edit {
        case EditMemory(id, content) =>
          var stripped := Strip(content);
          if stripped == "" || |stripped| > MEMORY_CONTENT_LIMIT {
            return Error(Shape);
          }
          if id !in memories {
            return Error(DoesNotExist);
          }
          memories := memories[id := stripped];
        case DropMemory(id) =>
          if id !in memories {
            return Error(DoesNotExist);
          }
          memories := memories - {id};
        case DropTool(id) =>
          if id !in tools {
            return Error(DoesNotExist);
          }
          tools := tools - {id};
        case DropArtifact(id) =>
          if id !in artifacts {
            return Error(DoesNotExist);
          }
          artifacts := artifacts - {id};
      }
      feed := feed + [Edited(edit)];
      return Ok(());
    }
  }
}
