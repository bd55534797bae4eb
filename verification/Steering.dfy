/**
 * Steering a running turn: the queue of undelivered steers, the passes over
 * it, and the turn that may not accept steers yet. `accepted` is history: what
 * the turn accepted, in order.
 */
module Steering {
  /** `popped` steers have been marked delivered; `pass` is what remains of the current pass over the others. */
  datatype Turn = Turn(submitted: seq<string>, popped: nat, pass: seq<string>, inHand: bool, accepted: seq<string>, over: bool)

  const FRESH_TURN := Turn([], 0, [], false, [], false)

  datatype Event =
    | Submit(steer: string)
    | BeginPass
    | Accept
    | NotSteerable
    | Fail
    | MarkDelivered

  predicate Enabled(t: Turn, e: Event) {
    match e
    case Submit(_) => true
    case BeginPass => !t.over && t.pass == [] && !t.inHand && t.popped <= |t.submitted|
    case Accept => !t.over && t.pass != [] && !t.inHand
    case NotSteerable => !t.over && t.pass != [] && !t.inHand
    case Fail => !t.over && !t.inHand
    case MarkDelivered => t.pass != [] && t.inHand
  }

  /** Drops the head of the queue if it is the steer that was delivered. */
  function Popped(t: Turn, steer: string): nat {
    if t.popped < |t.submitted| && t.submitted[t.popped] == steer then t.popped + 1 else t.popped
  }

  function Step(t: Turn, e: Event): Turn
    requires Enabled(t, e)
  {
    match e
    case Submit(steer) => t.(submitted := t.submitted + [steer])
    case BeginPass => t.(pass := t.submitted[t.popped..])
    case Accept => t.(accepted := t.accepted + [t.pass[0]], inHand := true)
    case NotSteerable => t.(pass := [])
    case Fail => t.(over := true)
    case MarkDelivered => t.(popped := Popped(t, t.pass[0]), pass := t.pass[1..], inHand := false)
  }

  /** The pass runs along the queue, and what the turn accepted is what was marked, plus the steer in hand. */
  predicate Inv(t: Turn) {
    && t.popped <= |t.submitted|
    && t.pass <= t.submitted[t.popped..]
    && (t.inHand ==> t.pass != [])
    && t.accepted == t.submitted[..t.popped] + (if t.inHand then [t.pass[0]] else [])
  }

  lemma MarkKeepsInv(t: Turn)
    requires Inv(t) && Enabled(t, MarkDelivered)
    ensures Inv(Step(t, MarkDelivered)) && Step(t, MarkDelivered).popped == t.popped + 1
  {
    assert t.pass[0] == t.submitted[t.popped..][0] == t.submitted[t.popped];
    assert t.submitted[..t.popped] + [t.submitted[t.popped]] == t.submitted[..t.popped + 1];
    assert t.pass[1..] <= t.submitted[t.popped..][1..] && t.submitted[t.popped..][1..] == t.submitted[t.popped + 1..];
  }

  lemma StepKeepsInv(t: Turn, e: Event)
    requires Inv(t) && Enabled(t, e)
    ensures Inv(Step(t, e))
  {
    match e
    case Submit(steer) =>
      assert (t.submitted + [steer])[t.popped..] == t.submitted[t.popped..] + [steer];
      assert (t.submitted + [steer])[..t.popped] == t.submitted[..t.popped];
    case MarkDelivered => MarkKeepsInv(t);
    case _ =>
  }

  ghost predicate Execution(states: seq<Turn>, events: seq<Event>) {
    && |states| == |events| + 1
    && states[0] == FRESH_TURN
    && forall i :: 0 <= i < |events| ==> Enabled(states[i], events[i]) && states[i + 1] == Step(states[i], events[i])
  }

  lemma {:induction false} ReachableInv(states: seq<Turn>, events: seq<Event>, i: nat)
    requires Execution(states, events) && i < |states|
    ensures Inv(states[i])
  {
    if i > 0 {
      ReachableInv(states, events, i - 1);
      StepKeepsInv(states[i - 1], events[i - 1]);
      assert states[i - 1 + 1] == Step(states[i - 1], events[i - 1]);
    }
  }

  /**
   * Whatever was refused and tried again, the turn has accepted a prefix of the
   * submitted steers, in order and each once; those marked delivered are the
   * accepted ones, up to the one in hand.
   */
  lemma AcceptedIsAPrefix(states: seq<Turn>, events: seq<Event>, i: nat)
    requires Execution(states, events) && i < |states|
    ensures states[i].popped <= |states[i].submitted|
    ensures states[i].accepted <= states[i].submitted
    ensures states[i].submitted[..states[i].popped] <= states[i].accepted
    ensures |states[i].accepted| == states[i].popped + if states[i].inHand then 1 else 0
  {
    ReachableInv(states, events, i);
    var t := states[i];
    if t.inHand {
      assert t.pass[0] == t.submitted[t.popped..][0];
      assert t.accepted == t.submitted[..t.popped + 1];
    }
  }

  /** After a refusal nothing is delivered until the next pass. */
  lemma {:induction false} NothingUntilNextPass(states: seq<Turn>, events: seq<Event>, i: nat, j: nat)
    requires Execution(states, events) && i < j < |states| && events[i].NotSteerable?
    requires forall k :: i < k < j ==> !events[k].BeginPass?
    ensures states[j].pass == [] && !states[j].inHand
    ensures states[j].popped == states[i].popped && states[i].submitted <= states[j].submitted
    decreases j
  {
    assert states[j - 1 + 1] == Step(states[j - 1], events[j - 1]);
    if j > i + 1 {
      NothingUntilNextPass(states, events, i, j - 1);
    }
  }

  /** A refused steer is the first one of the next pass. */
  lemma RefusedIsTriedAgain(states: seq<Turn>, events: seq<Event>, i: nat, j: nat)
    requires Execution(states, events) && i < j < |events| && events[i].NotSteerable? && events[j].BeginPass?
    requires forall k :: i < k < j ==> !events[k].BeginPass?
    ensures states[i].pass != [] && states[j + 1].pass != [] && states[j + 1].pass[0] == states[i].pass[0]
  {
    ReachableInv(states, events, i);
    NothingUntilNextPass(states, events, i, j);
    var t := states[i];
    assert t.pass[0] == t.submitted[t.popped..][0] == t.submitted[t.popped];
    assert states[j + 1] == Step(states[j], BeginPass);
    assert states[j].submitted[t.popped] == t.submitted[t.popped];
  }
}
