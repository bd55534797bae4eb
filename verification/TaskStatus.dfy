/** The life cycle of a host task: the statuses and the legal moves between them. */
module TaskStatus {

  datatype Status = Queued | Running | Completed | Failed | Cancelled

  /** The statuses a task may move to from `from`. */
  function Transitions(from: Status): set<Status> {
    match from
    case Queued => {Running, Cancelled}
    case Running => {Completed, Failed, Cancelled}
    case Completed => {}
    case Failed => {}
    case Cancelled => {}
  }

  predicate Terminal(s: Status) {
    s == Completed || s == Failed || s == Cancelled
  }

  /** A task record, of which this module owns the status and its time stamp. */
  class Task {
    var status: Status
    var updatedAt: string

    constructor (now: string)
      ensures status == Queued && updatedAt == now
    {
      status, updatedAt := Queued, now;
    }

    /** Moves the task, or refuses and leaves it as it is. */
    method SetStatus(to: Status, now: string) returns (legal: bool)
      modifies this
      ensures legal <==> to in Transitions(old(status))
      ensures legal ==> status == to && updatedAt == now
      ensures !legal ==> status == old(status) && updatedAt == old(updatedAt)
      ensures Terminal(old(status)) ==> !legal
    {
      if to !in Transitions(status) {
        return false;
      }
      status, updatedAt := to, now;
      return true;
    }
  }

  /** A status trace in which every step is a legal move. */
  ghost predicate LegalTrace(trace: seq<Status>) {
    forall i :: 0 <= i < |trace| - 1 ==> trace[i + 1] in Transitions(trace[i])
  }

  /** How many moves a task can still make at most. */
  function MovesLeft(s: Status): nat {
    match s
    case Queued => 2
    case Running => 1
    case _ => 0
  }

  /** Terminal statuses are final, and no task moves more than twice. */
  lemma {:induction false} LegalTraceIsShort(trace: seq<Status>, i: nat)
    requires LegalTrace(trace) && i < |trace|
    ensures MovesLeft(trace[i]) + i <= MovesLeft(trace[0])
    ensures Terminal(trace[i]) ==> i == |trace| - 1
    decreases i
  {
    if i > 0 {
      LegalTraceIsShort(trace, i - 1);
      assert trace[i - 1 + 1] in Transitions(trace[i - 1]);
    }
    if i < |trace| - 1 {
      assert trace[i + 1] in Transitions(trace[i]);
    }
  }
}
