/**
 * The message stream of one app-server process, and the steering of its turn.
 *
 * A reader thread appends to `queue` at any time; one driver takes messages.
 * While a call waits for its response, other messages move to `pending`.
 * `serial`, `read`, `consumed` and `before` are history: the order of arrival,
 * what the driver has read, what was taken as a response or as a completed login,
 * and how much was pending when the call that waits began.
 */
module CodexStream {
  import opened Prelude

  datatype Message = Message(serial: nat, id: Option<nat>, topic: string, login: Option<string>)

  datatype Client = Client(
    pending: seq<Message>, queue: seq<Message>, nextId: nat, waiting: Option<nat>,
    arrived: nat, read: seq<Message>, consumed: set<nat>, before: nat)

  const FRESH_CLIENT := Client([], [], 1, None, 0, [], {}, 0)

  /** The one stream: what is pending comes before what is queued. */
  function Stream(c: Client): seq<Message> {
    c.pending + c.queue
  }

  // ---------------------------------------------------------------------------
  // Steps

  datatype Event =
    | Arrive(id: Option<nat>, topic: string, login: Option<string>)
    | BeginCall
    | TakeNext
    | GiveUp
    | Read
    | CollectLogins

  /** The process may send anything at any time, requests of its own with any id included. */
  predicate Enabled(c: Client, e: Event) {
    match e
    case Arrive(_, _, _) => true
    case BeginCall => c.waiting.None?
    case TakeNext => c.waiting.Some? && c.queue != []
    case GiveUp => c.waiting.Some?
    case Read => c.waiting.None? && (c.pending != [] || c.queue != [])
    case CollectLogins => c.waiting.None?
  }

  const LOGIN_COMPLETED := "account/login/completed"

  /** Messages that are no completed logins. */
  function OtherMessages(messages: seq<Message>): (others: seq<Message>)
    ensures forall m :: m in others ==> m in messages
  {
    if messages == [] then []
    else
      var last := messages[|messages| - 1];
      OtherMessages(messages[..|messages| - 1]) + if last.topic == LOGIN_COMPLETED then [] else [last]
  }

  function Serials(messages: seq<Message>): set<nat> {
    set i | 0 <= i < |messages| :: messages[i].serial
  }

  /** The ids of the logins that succeeded; others carry none. */
  function SucceededLogins(messages: seq<Message>): set<string> {
    set i | 0 <= i < |messages| && messages[i].topic == LOGIN_COMPLETED && messages[i].login.Some?
            && messages[i].login.value != "" :: messages[i].login.value
  }

  function TakeStep(c: Client): Client
    requires Enabled(c, TakeNext)
  {
    var m := c.queue[0];
    if m.id == c.waiting then c.(queue := c.queue[1..], waiting := None, consumed := c.consumed + {m.serial})
    else c.(queue := c.queue[1..], pending := c.pending + [m])
  }

  function ReadStep(c: Client): Client
    requires Enabled(c, Read)
  {
    if c.pending != [] then c.(pending := c.pending[1..], read := c.read + [c.pending[0]])
    else c.(queue := c.queue[1..], read := c.read + [c.queue[0]])
  }

  function CollectStep(c: Client): Client {
    var others := OtherMessages(c.pending);
    c.(pending := others, consumed := c.consumed + (Serials(c.pending) - Serials(others)))
  }

  function Step(c: Client, e: Event): Client
    requires Enabled(c, e)
  {
    match e
    case Arrive(id, topic, login) =>
      c.(queue := c.queue + [Message(c.arrived, id, topic, login)], arrived := c.arrived + 1)
    case BeginCall => c.(waiting := Some(c.nextId), nextId := c.nextId + 1, before := |c.pending|)
    case TakeNext => TakeStep(c)
    case GiveUp => c.(waiting := None)
    case Read => ReadStep(c)
    case CollectLogins => CollectStep(c)
  }

  // ---------------------------------------------------------------------------
  // Invariant

  ghost predicate Ordered(messages: seq<Message>) {
    forall i, j :: 0 <= i < j < |messages| ==> messages[i].serial < messages[j].serial
  }

  /** What was read arrived before what is still in the stream. */
  ghost predicate ReadFirst(read: seq<Message>, stream: seq<Message>) {
    forall i, j :: 0 <= i < |read| && 0 <= j < |stream| ==> read[i].serial < stream[j].serial
  }

  /** Every message that arrived was read, consumed, or is still in the stream, and only one of these. */
  ghost predicate Accounted(read: seq<Message>, stream: seq<Message>, consumed: set<nat>, arrived: nat) {
    && (forall n :: 0 <= n < arrived ==> n in Serials(read) || n in Serials(stream) || n in consumed)
    && (forall n :: n in Serials(stream) ==> n < arrived && n !in Serials(read) && n !in consumed)
    && (forall n :: n in Serials(read) ==> n < arrived && n !in consumed)
    && (forall n :: n in consumed ==> n < arrived)
  }

  /** No message that the waiting call has set aside answers it. */
  ghost predicate NoAnswerPending(c: Client) {
    c.waiting.Some? ==>
      && c.before <= |c.pending|
      && forall i :: c.before <= i < |c.pending| ==> c.pending[i].id != c.waiting
  }

  ghost predicate Inv(c: Client) {
    && Ordered(Stream(c)) && Ordered(c.read) && ReadFirst(c.read, Stream(c))
    && Accounted(c.read, Stream(c), c.consumed, c.arrived) && NoAnswerPending(c)
  }

  lemma SerialsOfConcat(a: seq<Message>, b: seq<Message>)
    ensures Serials(a + b) == Serials(a) + Serials(b)
  {
    forall n | n in Serials(a) + Serials(b)
      ensures n in Serials(a + b)
    {
      if n in Serials(a) {
        var i :| 0 <= i < |a| && a[i].serial == n;
        assert (a + b)[i].serial == n;
      } else {
        var i :| 0 <= i < |b| && b[i].serial == n;
        assert (a + b)[|a| + i].serial == n;
      }
    }
  }

  lemma SerialsOfOne(m: Message)
    ensures Serials([m]) == {m.serial}
  {
    assert [m][0].serial in Serials([m]);
  }

  /** One message leaves the stream, from any place, for the readers or for a call. */
  lemma LeavesOrder(before: seq<Message>, m: Message, after: seq<Message>)
    requires Ordered(before + [m] + after)
    ensures Ordered(before + after)
    ensures forall i :: 0 <= i < |before + after| ==> (before + after)[i].serial != m.serial
  {
    var s, t := before + [m] + after, before + after;
    assert s[|before|] == m;
    assert forall i :: 0 <= i < |t| ==> t[i] == s[if i < |before| then i else i + 1];
  }

  lemma LeavesStream(before: seq<Message>, m: Message, after: seq<Message>)
    requires Ordered(before + [m] + after)
    ensures Serials(before + [m] + after) == Serials(before + after) + {m.serial}
    ensures m.serial !in Serials(before + after) && Ordered(before + after)
  {
    LeavesOrder(before, m, after);
    SerialsOfConcat(before + [m], after);
    SerialsOfConcat(before, [m]);
    SerialsOfConcat(before, after);
    SerialsOfOne(m);
  }

  lemma ArriveKeepsInv(c: Client, e: Event)
    requires Inv(c) && e.Arrive? && Enabled(c, e)
    ensures Inv(Step(c, e))
  {
    var m := Message(c.arrived, e.id, e.topic, e.login);
    var s' := Step(c, e);
    assert Stream(s') == Stream(c) + [m];
    SerialsOfConcat(Stream(c), [m]);
    SerialsOfOne(m);
    forall i | 0 <= i < |Stream(c)|
      ensures Stream(c)[i].serial < c.arrived
    {
      assert Stream(c)[i].serial in Serials(Stream(c));
    }
    forall i | 0 <= i < |c.read|
      ensures c.read[i].serial < c.arrived
    {
      assert c.read[i].serial in Serials(c.read);
    }
  }

  /** A message that is no answer stays in its place in the stream; the answer leaves, and nothing else does. */
  lemma TakeOnStream(c: Client)
    requires Enabled(c, TakeNext) && NoAnswerPending(c)
    ensures c.queue[0].id != c.waiting ==> Stream(Step(c, TakeNext)) == Stream(c)
    ensures c.queue[0].id == c.waiting ==>
      Stream(c) == c.pending + [c.queue[0]] + c.queue[1..] && Stream(Step(c, TakeNext)) == c.pending + c.queue[1..]
  {
    assert c.queue == [c.queue[0]] + c.queue[1..];
  }

  lemma TakeKeepsInv(c: Client)
    requires Inv(c) && Enabled(c, TakeNext)
    ensures Inv(Step(c, TakeNext))
  {
    TakeOnStream(c);
    var s' := Step(c, TakeNext);
    if c.queue[0].id == c.waiting {
      LeavesStream(c.pending, c.queue[0], c.queue[1..]);
      assert forall i :: 0 <= i < |Stream(s')| ==> Stream(s')[i] in Stream(c);
    }
  }

  lemma ReadOnStream(c: Client)
    requires Enabled(c, Read)
    ensures Stream(c) != [] && Stream(Step(c, Read)) == Stream(c)[1..] && Step(c, Read).read == c.read + [Stream(c)[0]]
  {
    if c.pending == [] {
      assert Stream(c) == c.queue;
      assert [] + c.queue[1..] == c.queue[1..];
    }
  }

  lemma HeadKeepsOrder(read: seq<Message>, head: Message, rest: seq<Message>)
    requires Ordered([head] + rest) && Ordered(read) && ReadFirst(read, [head] + rest)
    ensures Ordered(read + [head]) && Ordered(rest) && ReadFirst(read + [head], rest)
  {
    var s := [head] + rest;
    assert s[0] == head && forall j :: 0 <= j < |rest| ==> s[j + 1] == rest[j];
  }

  lemma HeadKeepsAccount(read: seq<Message>, head: Message, rest: seq<Message>, consumed: set<nat>, arrived: nat)
    requires Ordered([head] + rest) && Accounted(read, [head] + rest, consumed, arrived)
    ensures Accounted(read + [head], rest, consumed, arrived)
  {
    SerialsOfConcat(read, [head]);
    SerialsOfConcat([head], rest);
    SerialsOfOne(head);
    forall j | 0 <= j < |rest|
      ensures rest[j].serial != head.serial
    {
      assert ([head] + rest)[0].serial < ([head] + rest)[j + 1].serial;
    }
  }

  lemma ReadKeepsInv(c: Client)
    requires Inv(c) && Enabled(c, Read)
    ensures Inv(Step(c, Read))
  {
    ReadOnStream(c);
    var s := Stream(c);
    assert s == [s[0]] + s[1..];
    HeadKeepsOrder(c.read, s[0], s[1..]);
    HeadKeepsAccount(c.read, s[0], s[1..], c.consumed, c.arrived);
    assert forall i :: 0 <= i < |s[1..]| ==> s[1..][i] == s[i + 1];
  }

  lemma BeginKeepsInv(c: Client)
    requires Inv(c) && Enabled(c, BeginCall)
    ensures Inv(Step(c, BeginCall))
  {
    assert Stream(Step(c, BeginCall)) == Stream(c);
  }

  lemma {:induction false} OthersAreOrdered(messages: seq<Message>)
    requires Ordered(messages)
    ensures Ordered(OtherMessages(messages))
    ensures Serials(OtherMessages(messages)) <= Serials(messages)
    decreases |messages|
  {
    if messages != [] {
      var n := |messages| - 1;
      OthersAreOrdered(messages[..n]);
      var others := OtherMessages(messages[..n]);
      forall i | 0 <= i < |others|
        ensures others[i].serial < messages[n].serial
      {
        assert others[i] in messages[..n];
      }
      SerialsOfConcat(others, [messages[n]]);
      assert messages[..n] + [messages[n]] == messages;
      SerialsOfConcat(messages[..n], [messages[n]]);
    }
  }

  lemma {:induction false} OthersExactly(messages: seq<Message>, m: Message)
    ensures m in OtherMessages(messages) <==> m in messages && m.topic != "account/login/completed"
    decreases |messages|
  {
    if messages != [] {
      var n := |messages| - 1;
      OthersExactly(messages[..n], m);
      assert messages == messages[..n] + [messages[n]];
    }
  }

  /** Collecting takes exactly the completed logins out of what is pending, and leaves what is queued. */
  lemma CollectTakesCompletedLogins(c: Client, c': Client)
    requires Inv(c) && Enabled(c, CollectLogins) && c' == Step(c, CollectLogins)
    ensures forall m :: m in c.pending ==>
      if m.topic == "account/login/completed" then m.serial in c'.consumed && m !in Stream(c') else m in c'.pending
    ensures c'.queue == c.queue && forall m :: m in c'.pending ==> m in c.pending
    ensures forall n :: n in c'.consumed ==>
      n in c.consumed || exists m :: m in c.pending && m.topic == "account/login/completed" && m.serial == n
    ensures c' == c.(pending := c'.pending, consumed := c'.consumed) && c.consumed <= c'.consumed
  {
    assert Ordered(c.pending) by {
      assert forall i :: 0 <= i < |c.pending| ==> Stream(c)[i] == c.pending[i];
    }
    DisjointSerials(c);
    forall m | m in c.pending
      ensures if m.topic == "account/login/completed" then m.serial in c'.consumed && m !in Stream(c') else m in c'.pending
    {
      OthersExactly(c.pending, m);
      if m.topic == "account/login/completed" {
        TakenIsConsumed(c, m);
      }
    }
    forall n | n in c'.consumed && n !in c.consumed
      ensures exists m :: m in c.pending && m.topic == "account/login/completed" && m.serial == n
    {
      var i :| 0 <= i < |c.pending| && c.pending[i].serial == n;
      OthersExactly(c.pending, c.pending[i]);
      if c.pending[i].topic != "account/login/completed" {
        OthersHaveTheirSerials(c.pending, c.pending[i]);
      }
    }
  }

  lemma OthersHaveTheirSerials(messages: seq<Message>, m: Message)
    requires m in OtherMessages(messages)
    ensures m.serial in Serials(OtherMessages(messages))
  {
  }

  lemma TakenIsConsumed(c: Client, m: Message)
    requires Enabled(c, CollectLogins) && Ordered(c.pending) && Serials(c.pending) !! Serials(c.queue)
    requires m in c.pending && m !in OtherMessages(c.pending)
    ensures m.serial in Step(c, CollectLogins).consumed && m !in Stream(Step(c, CollectLogins))
  {
    var others := OtherMessages(c.pending);
    assert m.serial in Serials(c.pending);
    assert m in c.queue ==> m.serial in Serials(c.queue);
    forall i | 0 <= i < |others|
      ensures others[i].serial != m.serial
    {
      assert others[i] in c.pending;
    }
  }

  lemma CollectKeepsInv(c: Client)
    requires Inv(c) && Enabled(c, CollectLogins)
    ensures Inv(Step(c, CollectLogins))
  {
    var s' := Step(c, CollectLogins);
    var others := OtherMessages(c.pending);
    assert Ordered(c.pending) by {
      assert forall i :: 0 <= i < |c.pending| ==> Stream(c)[i] == c.pending[i];
    }
    OthersAreOrdered(c.pending);
    SerialsOfConcat(c.pending, c.queue);
    SerialsOfConcat(others, c.queue);
    forall i | 0 <= i < |Stream(s')|
      ensures exists k :: 0 <= k < |Stream(c)| && Stream(c)[k] == Stream(s')[i]
    {
      if i < |others| {
        assert others[i] in c.pending;
        var k :| 0 <= k < |c.pending| && c.pending[k] == others[i];
        assert Stream(c)[k] == Stream(s')[i];
      } else {
        assert Stream(c)[|c.pending| + i - |others|] == Stream(s')[i];
      }
    }
    PendingBeforeQueue(c, others);
    DisjointSerials(c);
  }

  lemma PendingBeforeQueue(c: Client, others: seq<Message>)
    requires Ordered(Stream(c)) && Ordered(others) && forall m :: m in others ==> m in c.pending
    ensures Ordered(others + c.queue)
  {
    forall i, j | 0 <= i < |others| && 0 <= j < |c.queue|
      ensures others[i].serial < c.queue[j].serial
    {
      assert others[i] in c.pending;
      var k :| 0 <= k < |c.pending| && c.pending[k] == others[i];
      assert Stream(c)[k] == c.pending[k] && Stream(c)[|c.pending| + j] == c.queue[j];
    }
    forall i, j | 0 <= i < j < |c.queue|
      ensures c.queue[i].serial < c.queue[j].serial
    {
      assert Stream(c)[|c.pending| + i] == c.queue[i] && Stream(c)[|c.pending| + j] == c.queue[j];
    }
  }

  lemma DisjointSerials(c: Client)
    requires Ordered(Stream(c))
    ensures Serials(c.pending) !! Serials(c.queue)
  {
    forall n | n in Serials(c.pending)
      ensures n !in Serials(c.queue)
    {
      var i :| 0 <= i < |c.pending| && c.pending[i].serial == n;
      forall j | 0 <= j < |c.queue|
        ensures c.queue[j].serial != n
      {
        assert Stream(c)[i] == c.pending[i] && Stream(c)[|c.pending| + j] == c.queue[j];
      }
    }
  }

  lemma StepKeepsInv(c: Client, e: Event)
    requires Inv(c) && Enabled(c, e)
    ensures Inv(Step(c, e))
  {
    match e
    case Arrive(_, _, _) => ArriveKeepsInv(c, e);
    case BeginCall => BeginKeepsInv(c);
    case TakeNext => TakeKeepsInv(c);
    case GiveUp => assert Stream(Step(c, e)) == Stream(c);
    case Read => ReadKeepsInv(c);
    case CollectLogins => CollectKeepsInv(c);
  }

  // ---------------------------------------------------------------------------
  // Runs

  ghost predicate Execution(states: seq<Client>, events: seq<Event>) {
    && |states| == |events| + 1
    && states[0] == FRESH_CLIENT
    && forall i :: 0 <= i < |events| ==> Enabled(states[i], events[i]) && states[i + 1] == Step(states[i], events[i])
  }

  lemma {:induction false} ReachableInv(states: seq<Client>, events: seq<Event>, i: nat)
    requires Execution(states, events) && i < |states|
    ensures Inv(states[i])
  {
    if i > 0 {
      ReachableInv(states, events, i - 1);
      StepKeepsInv(states[i - 1], events[i - 1]);
      assert states[i - 1 + 1] == Step(states[i - 1], events[i - 1]);
    }
  }

  lemma NextIdsGrow(states: seq<Client>, events: seq<Event>, i: nat)
    requires Execution(states, events) && i < |events|
    ensures states[i + 1].nextId == states[i].nextId + if events[i].BeginCall? then 1 else 0
    ensures events[i].BeginCall? ==> states[i + 1].waiting == Some(states[i].nextId)
  {
    assert states[i + 1] == Step(states[i], events[i]);
  }

  lemma {:induction false} IdsGrow(states: seq<Client>, events: seq<Event>, i: nat, j: nat)
    requires Execution(states, events) && i <= j < |states|
    ensures states[i].nextId <= states[j].nextId
    decreases j
  {
    if i < j {
      IdsGrow(states, events, i, j - 1);
      NextIdsGrow(states, events, j - 1);
    }
  }

  /** Every call waits for an id that no earlier call has waited for. */
  lemma CallIdsAreFresh(states: seq<Client>, events: seq<Event>, i: nat, j: nat)
    requires Execution(states, events) && i < j < |events| && events[i].BeginCall? && events[j].BeginCall?
    ensures states[i + 1].waiting.Some? && states[j + 1].waiting.Some?
    ensures states[i + 1].waiting.value < states[j + 1].waiting.value
  {
    NextIdsGrow(states, events, i);
    IdsGrow(states, events, i + 1, j);
    NextIdsGrow(states, events, j);
  }

  /**
   * A call takes exactly its response out of the stream, the first message with
   * its id after those that were pending when it began, and leaves everything else
   * where it is.
   */
  lemma CallTakesItsResponse(states: seq<Client>, events: seq<Event>, i: nat)
    requires Execution(states, events) && i < |events| && events[i].TakeNext?
    ensures var c, k := states[i], |states[i].pending|;
      if c.queue[0].id == c.waiting then
        && k < |Stream(c)| && Stream(states[i + 1]) == Stream(c)[..k] + Stream(c)[k + 1..]
        && Stream(c)[k].id == c.waiting && c.before <= k && (forall j :: c.before <= j < k ==> Stream(c)[j].id != c.waiting)
      else Stream(states[i + 1]) == Stream(c)
  {
    ReachableInv(states, events, i);
    TakeOnStream(states[i]);
    assert states[i + 1] == Step(states[i], TakeNext);
  }

  /** Reading takes the head of the stream. */
  lemma ReadTakesTheHead(states: seq<Client>, events: seq<Event>, i: nat)
    requires Execution(states, events) && i < |events| && events[i].Read?
    ensures Stream(states[i]) != []
    ensures states[i + 1].read == states[i].read + [Stream(states[i])[0]] && Stream(states[i + 1]) == Stream(states[i])[1..]
  {
    ReadOnStream(states[i]);
    assert states[i + 1] == Step(states[i], Read);
  }

  /** In every run messages are read in the order of arrival, and none is lost. */
  lemma NothingLostOrReordered(states: seq<Client>, events: seq<Event>, i: nat, n: nat)
    requires Execution(states, events) && i < |states| && n < states[i].arrived
    ensures Ordered(states[i].read) && ReadFirst(states[i].read, Stream(states[i]))
    ensures n in Serials(states[i].read) || n in Serials(Stream(states[i])) || n in states[i].consumed
    ensures n in Serials(states[i].read) ==> n !in Serials(Stream(states[i])) && n !in states[i].consumed
    ensures n in Serials(Stream(states[i])) ==> n !in states[i].consumed
  {
    ReachableInv(states, events, i);
  }

  // ---------------------------------------------------------------------------
  // The client, updated in place

  class AppServerClient {
    var pending: seq<Message>
    var queue: seq<Message>
    var nextId: nat

    constructor ()
      ensures pending == [] && queue == [] && nextId == 1
    {
      pending, queue, nextId := [], [], 1;
    }

    /** A call, with the messages that the reader had queued: it keeps all others for the readers, in order. */
    method Call() returns (response: Option<Message>)
      modifies this
      ensures nextId == old(nextId) + 1
      ensures response.Some? ==>
        exists k :: 0 <= k < |old(queue)| && old(queue)[k] == response.value && response.value.id == Some(old(nextId))
          && (forall j :: 0 <= j < k ==> old(queue)[j].id != Some(old(nextId)))
          && pending == old(pending) + old(queue)[..k] && queue == old(queue)[k + 1..]
      ensures response.None? ==>
        && (forall j :: 0 <= j < |old(queue)| ==> old(queue)[j].id != Some(old(nextId)))
        && pending == old(pending) + old(queue) && queue == []
    {
      var request := nextId;
      nextId := nextId + 1;
      ghost var n := 0;
      assert queue[0..] == queue && pending == pending + queue[..0];
      while queue != []
        invariant 0 <= n <= |old(queue)| && queue == old(queue)[n..]
        invariant pending == old(pending) + old(queue)[..n] && nextId == old(nextId) + 1
        invariant forall j :: 0 <= j < n ==> old(queue)[j].id != Some(request)
        decreases |queue|
      {
        var message := queue[0];
        queue := queue[1..];
        if message.id == Some(request) {
          assert old(queue)[n] == message;
          return Some(message);
        }
        pending := pending + [message];
        n := n + 1;
      }
      return None;
    }

    method ReadMessage() returns (message: Option<Message>)
      modifies this`pending, this`queue
      ensures message == if old(pending + queue) == [] then None else Some(old(pending + queue)[0])
      ensures pending + queue == if old(pending + queue) == [] then [] else old(pending + queue)[1..]
    {
      if pending != [] {
        message := Some(pending[0]);
        pending := pending[1..];
      } else if queue != [] {
        message := Some(queue[0]);
        queue := queue[1..];
        assert [] + queue == queue;
      } else {
        message := None;
      }
    }

    method CollectCompletedLogins() returns (completed: set<string>)
      modifies this`pending
      ensures pending == OtherMessages(old(pending)) && completed == SucceededLogins(old(pending))
    {
      completed := {};
      var kept: seq<Message> := [];
      ghost var was := pending;
      ghost var n := 0;
      assert was[0..] == was;
      while pending != []
        invariant 0 <= n <= |was| && pending == was[n..]
        invariant kept == OtherMessages(was[..n]) && completed == SucceededLogins(was[..n])
        decreases |pending|
      {
        var message := pending[0];
        pending := pending[1..];
        SucceededGrow(was, n);
        assert was[..n + 1][..n] == was[..n];
        if message.topic == LOGIN_COMPLETED {
          if message.login.Some? && message.login.value != "" {
            completed := completed + {message.login.value};
          }
        } else {
          kept := kept + [message];
        }
        n := n + 1;
      }
      assert was[..|was|] == was;
      pending := kept;
    }

    static lemma SucceededGrow(messages: seq<Message>, n: nat)
      requires n < |messages|
      ensures SucceededLogins(messages[..n + 1]) == SucceededLogins(messages[..n])
        + if messages[n].topic == LOGIN_COMPLETED && messages[n].login.Some? && messages[n].login.value != ""
          then {messages[n].login.value} else {}
    {
      var before, after := messages[..n], messages[..n + 1];
      forall l | l in SucceededLogins(before)
        ensures l in SucceededLogins(after)
      {
        var i :| 0 <= i < n && before[i].topic == LOGIN_COMPLETED && before[i].login == Some(l) && l != "";
        assert after[i] == before[i];
      }
      assert after[n] == messages[n];
    }
  }
}
