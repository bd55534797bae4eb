/** Processes that nobody will ever close, and why Hermes has none. */
module TaskPoolLost {
  import opened TaskPool
  import opened TaskPoolInvariant
  import opened TaskPoolSafety
  import opened TaskPoolHistory

  /** Not registered, without a worker, and in nobody's hands. */
  ghost predicate Abandoned(s: Pool, p: nat) {
    && p < |s.processes| && !Registered(s.live, s.processes[p].key, p)
    && (forall w :: 0 <= w < |s.workers| && HasServer(s.workers[w]) ==> s.workers[w].server != p)
    && p !in s.closers.owned && p !in s.closers.dropping
  }

  /** Up, and abandoned. */
  ghost predicate Lost(s: Pool, p: nat) {
    Abandoned(s, p) && s.processes[p].state.Up?
  }

  lemma AbandonedStaysUnregistered(s: Pool, e: Event, s': Pool, p: nat)
    requires Abandoned(s, p) && Enabled(s, e) && s' == Step(s, e)
    ensures !Registered(s'.live, s.processes[p].key, p)
  {
  }

  lemma AbandonedStaysAlone(s: Pool, e: Event, s': Pool, p: nat)
    requires Abandoned(s, p) && Enabled(s, e) && s' == Step(s, e)
    ensures forall w :: 0 <= w < |s'.workers| && HasServer(s'.workers[w]) ==> s'.workers[w].server != p
  {
  }

  /** Only its own exit still touches it. */
  lemma AbandonedIsUntouched(s: Pool, e: Event, s': Pool, p: nat)
    requires Abandoned(s, p) && Enabled(s, e) && s' == Step(s, e)
    ensures p < |s'.processes| && s'.processes[p].key == s.processes[p].key
    ensures e != Exit(p) ==> s'.processes[p] == s.processes[p]
  {
  }

  lemma AbandonedStaysOutOfHand(s: Pool, e: Event, s': Pool, p: nat)
    requires Abandoned(s, p) && Enabled(s, e) && s' == Step(s, e)
    ensures p !in s'.closers.owned && p !in s'.closers.dropping
  {
  }

  lemma StepKeepsAbandoned(s: Pool, e: Event, s': Pool, p: nat)
    requires Abandoned(s, p) && Enabled(s, e) && s' == Step(s, e)
    ensures Abandoned(s', p) && (e != Exit(p) ==> s'.processes[p] == s.processes[p])
  {
    AbandonedStaysUnregistered(s, e, s', p);
    AbandonedStaysAlone(s, e, s', p);
    AbandonedIsUntouched(s, e, s', p);
    AbandonedStaysOutOfHand(s, e, s', p);
  }

  lemma NextAbandoned(states: seq<Pool>, events: seq<Event>, i: nat, p: nat)
    requires Execution(states, events) && i < |events| && Abandoned(states[i], p)
    ensures Abandoned(states[i + 1], p) && (events[i] != Exit(p) ==> states[i + 1].processes[p] == states[i].processes[p])
  {
    StepKeepsAbandoned(states[i], events[i], states[i + 1], p);
  }

  /**
   * A lost process stays abandoned in every continuation of every run, whatever
   * workers and operators do, and it stays up until it exits.
   */
  lemma {:induction false} LostForever(states: seq<Pool>, events: seq<Event>, i: nat, j: nat, p: nat)
    requires Execution(states, events) && i <= j < |states| && Lost(states[i], p)
    ensures Abandoned(states[j], p)
    ensures (forall k :: i <= k < j ==> events[k] != Exit(p)) ==> Lost(states[j], p)
    decreases j
  {
    if i < j {
      LostForever(states, events, i, j - 1, p);
      NextAbandoned(states, events, j - 1, p);
    }
  }

  /** A Hermes worker holds its process until it has ended. */
  ghost predicate HermesHeld(s: Pool) {
    forall p :: 0 <= p < |s.processes| && s.processes[p].key.runtime.Hermes? && s.processes[p].state.Up? ==>
      exists w :: 0 <= w < |s.workers| && s.workers[w].Started? && s.workers[w].server == p
  }

  lemma HolderStays(s: Pool, e: Event, s': Pool, w: nat)
    requires Enabled(s, e) && s' == Step(s, e) && w < |s.workers| && s.workers[w].Started?
    requires s.workers[w].server < |s.processes| && s.processes[s.workers[w].server].key.runtime.Hermes?
    requires s.processes[s.workers[w].server].state.Up?
    ensures w < |s'.workers| && s'.workers[w] == s.workers[w]
  {
  }

  lemma StepKeepsHeld(s: Pool, e: Event, s': Pool)
    requires HermesHeld(s) && Enabled(s, e) && s' == Step(s, e)
    ensures HermesHeld(s')
  {
    ProcessesStay(s, e, s');
    forall p | 0 <= p < |s'.processes| && s'.processes[p].key.runtime.Hermes? && s'.processes[p].state.Up?
      ensures exists w :: 0 <= w < |s'.workers| && s'.workers[w].Started? && s'.workers[w].server == p
    {
      if p < |s.processes| && s.processes[p].state.Up? {
        var w :| 0 <= w < |s.workers| && s.workers[w].Started? && s.workers[w].server == p;
        HolderStays(s, e, s', w);
      } else {
        NewlyUp(s, e, s', p);
        NewlyHeld(s, e, s');
      }
    }
  }

  lemma NewlyHeld(s: Pool, e: Event, s': Pool)
    requires Enabled(s, e) && s' == Step(s, e) && e.Start? && !RefusesSpawn(s.processes[s.workers[e.worker].server])
    ensures e.worker < |s'.workers| && s'.workers[e.worker].Started?
    ensures s'.workers[e.worker].server == s.workers[e.worker].server
  {
  }

  lemma NextHeld(states: seq<Pool>, events: seq<Event>, i: nat)
    requires Execution(states, events) && i < |events| && HermesHeld(states[i])
    ensures HermesHeld(states[i + 1])
  {
    StepKeepsHeld(states[i], events[i], states[i + 1]);
  }

  /** No Hermes process is ever lost, in any run. */
  lemma {:induction false} HermesIsNeverLost(states: seq<Pool>, events: seq<Event>, i: nat)
    requires Execution(states, events) && i < |states|
    ensures HermesHeld(states[i])
    ensures forall p: nat :: p < |states[i].processes| && states[i].processes[p].key.runtime.Hermes? ==> !Lost(states[i], p)
  {
    if i > 0 {
      HermesIsNeverLost(states, events, i - 1);
      NextHeld(states, events, i - 1);
    }
  }
}
