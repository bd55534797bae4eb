/**
 * Composing the input of a host task from the workspace: setup brief, recent
 * conversation, digest with domain sections, and the message itself. It never
 * exceeds the host's limit while the rows obey their caps.
 */
module TaskInput {
  import opened Prelude
  import opened Digest
  import opened AgentTables
  import opened RunQueue

  const HOST_INPUT_LIMIT := 50_000
  const RECENT_CONTEXT_MESSAGES := 2
  const RECENT_CONTEXT_MESSAGE_LIMIT := 1_900
  const FRAMING_RESERVE := 64

  // ---------------------------------------------------------------------------
  // Recent conversation

  datatype Role = FromHuman | FromAgent | FromSystem

  datatype Message = Message(id: nat, role: Role, content: string)

  /** The messages of people and agents, before some message if one is given. */
  function Conversation(history: seq<Message>, before: Option<nat>): (talk: seq<Message>)
    ensures forall m :: m in talk ==> m in history && !m.role.FromSystem? && (before.Some? ==> m.id < before.value)
  {
    if history == [] then []
    else
      var m := history[|history| - 1];
      Conversation(history[..|history| - 1], before)
      + if !m.role.FromSystem? && (before.None? || m.id < before.value) then [m] else []
  }

  /** A message, cut to the limit with an ellipsis as its last character. */
  function Clipped(content: string): (text: string)
    ensures |text| <= RECENT_CONTEXT_MESSAGE_LIMIT
    ensures |content| <= RECENT_CONTEXT_MESSAGE_LIMIT ==> text == content
    ensures |content| > RECENT_CONTEXT_MESSAGE_LIMIT ==> |text| == RECENT_CONTEXT_MESSAGE_LIMIT
  {
    if |content| <= RECENT_CONTEXT_MESSAGE_LIMIT then content
    else content[..RECENT_CONTEXT_MESSAGE_LIMIT - 1] + "\U{2026}"
  }

  function MessageLine(m: Message): string {
    (if m.role.FromHuman? then "Human: " else "Agent: ") + Clipped(m.content)
  }

  /** The last messages of the conversation, oldest first. */
  function RecentContext(history: seq<Message>, before: Option<nat>): (text: string)
    ensures |text| <= RECENT_CONTEXT_MESSAGES * (7 + RECENT_CONTEXT_MESSAGE_LIMIT + 1)
  {
    var talk := Conversation(history, before);
    if talk == [] then ""
    else if |talk| == 1 then MessageLine(talk[0])
    else MessageLine(talk[|talk| - 2]) + "\n" + MessageLine(talk[|talk| - 1])
  }

  /** A message of a person or of the agent that precedes `before`, if that is given. */
  predicate IsTalk(m: Message, before: Option<nat>) {
    !m.role.FromSystem? && (before.Some? ==> m.id < before.value)
  }

  /** One line of the recent conversation, to the letter. */
  predicate IsTalkLine(line: string, m: Message) {
    line == (if m.role.FromHuman? then "Human: " else "Agent: ")
            + (if |m.content| <= 1_900 then m.content else m.content[..1_899] + "\U{2026}")
  }

  lemma OneMoreMessage(history: seq<Message>, before: Option<nat>)
    requires history != []
    ensures var n := |history| - 1;
      Conversation(history, before) == Conversation(history[..n], before) + if IsTalk(history[n], before) then [history[n]] else []
  {
  }

  lemma LaterIsNoTalk(history: seq<Message>, before: Option<nat>)
    requires history != [] && !IsTalk(history[|history| - 1], before)
    ensures Conversation(history, before) == Conversation(history[..|history| - 1], before)
  {
    OneMoreMessage(history, before);
  }

  predicate IsLastTalk(history: seq<Message>, before: Option<nat>, j: nat) {
    j < |history| && IsTalk(history[j], before) && forall k :: j < k < |history| ==> !IsTalk(history[k], before)
  }

  lemma {:induction false} LastOfTheTalk(history: seq<Message>, before: Option<nat>, j: nat)
    requires IsLastTalk(history, before, j)
    ensures Conversation(history, before) == Conversation(history[..j], before) + [history[j]]
    decreases |history|
  {
    if j == |history| - 1 {
      OneMoreMessage(history, before);
    } else {
      var shorter := history[..|history| - 1];
      LaterIsNoTalk(history, before);
      assert shorter[..j] == history[..j] && shorter[j] == history[j];
      LastOfTheTalk(shorter, before, j);
    }
  }

  lemma {:induction false} NoTalk(history: seq<Message>, before: Option<nat>)
    requires forall k :: 0 <= k < |history| ==> !IsTalk(history[k], before)
    ensures Conversation(history, before) == []
    decreases |history|
  {
    if history != [] {
      NoTalk(history[..|history| - 1], before);
    }
  }

  lemma LineIsTalkLine(m: Message)
    ensures IsTalkLine(MessageLine(m), m)
  {
  }

  predicate NoTalkBetween(history: seq<Message>, before: Option<nat>, i: nat, j: nat) {
    forall k :: i <= k < j && k < |history| ==> !IsTalk(history[k], before)
  }

  /**
   * The recent conversation is the last two messages of people and agents before
   * the given one, `i` and `j`, oldest first,
   */
  lemma RecentContextIsTheLastTwo(history: seq<Message>, before: Option<nat>, i: nat, j: nat) returns (a: string, b: string)
    requires i < j < |history| && IsTalk(history[i], before) && IsTalk(history[j], before)
    requires NoTalkBetween(history, before, i + 1, j) && NoTalkBetween(history, before, j + 1, |history|)
    ensures IsTalkLine(a, history[i]) && IsTalkLine(b, history[j]) && RecentContext(history, before) == a + "\n" + b
  {
    var earlier := history[..j];
    LastOfTheTalk(history, before, j);
    LastOfTheTalk(earlier, before, i);
    a, b := MessageLine(history[i]), MessageLine(history[j]);
    LineIsTalkLine(history[i]);
    LineIsTalkLine(history[j]);
    var talk := Conversation(history, before);
    assert talk[|talk| - 2] == history[i] && talk[|talk| - 1] == history[j];
  }

  /** or the only one, */
  lemma RecentContextIsTheOnlyOne(history: seq<Message>, before: Option<nat>, j: nat)
    requires j < |history| && IsTalk(history[j], before)
    requires NoTalkBetween(history, before, 0, j) && NoTalkBetween(history, before, j + 1, |history|)
    ensures IsTalkLine(RecentContext(history, before), history[j])
  {
    LastOfTheTalk(history, before, j);
    NoTalk(history[..j], before);
    LineIsTalkLine(history[j]);
  }

  /** or nothing. */
  lemma NoRecentContext(history: seq<Message>, before: Option<nat>)
    requires NoTalkBetween(history, before, 0, |history|)
    ensures RecentContext(history, before) == ""
  {
    NoTalk(history, before);
  }

  // ---------------------------------------------------------------------------
  // Domain sections

  datatype DomainSection = DomainSection(title: string, items: seq<string>)

  function ItemLines(s: DomainSection): seq<string> {
    [s.title] + if s.items == [] then ["- (none)"] else s.items
  }

  function DomainLines(sections: seq<DomainSection>): seq<string> {
    if sections == [] then [] else DomainLines(sections[..|sections| - 1]) + ItemLines(sections[|sections| - 1])
  }

  /** `shown` lines are as many as fit the budget. */
  ghost predicate IsLongestShown(lines: seq<string>, budget: Option<nat>, shown: nat) {
    && shown <= |lines|
    && (budget.None? ==> shown == |lines|)
    && (budget.Some? ==> |Join(lines[..shown], "\n")| <= budget.value)
    && (budget.Some? ==> forall n :: shown < n <= |lines| ==> |Join(lines[..n], "\n")| > budget.value)
  }

  lemma {:induction false} MoreLinesAreLonger(lines: seq<string>, i: nat, j: nat)
    requires i <= j <= |lines|
    ensures |Join(lines[..i], "\n")| <= |Join(lines[..j], "\n")|
    decreases j
  {
    if i < j {
      MoreLinesAreLonger(lines, i, j - 1);
      assert lines[..j][..j - 1] == lines[..j - 1];
    }
  }

  /** The lines shown are the longest prefix if the next one does not fit. */
  lemma NothingLongerFits(all: seq<string>, budget: nat, shown: nat, next: seq<string>)
    requires shown < |all| && next == all[..shown + 1] && |Join(next, "\n")| > budget
    requires |Join(all[..shown], "\n")| <= budget
    ensures IsLongestShown(all, Some(budget), shown)
  {
    forall n | shown < n <= |all|
      ensures |Join(all[..n], "\n")| > budget
    {
      MoreLinesAreLonger(all, shown + 1, n);
    }
  }

  lemma {:induction false} DomainLinesAreAPrefix(sections: seq<DomainSection>, i: nat)
    requires i <= |sections|
    ensures DomainLines(sections[..i]) <= DomainLines(sections)
    decreases |sections| - i
  {
    if i == |sections| {
      assert sections[..i] == sections;
    } else {
      DomainLinesAreAPrefix(sections, i + 1);
      assert sections[..i + 1][..i] == sections[..i];
    }
  }

  predicate Fits(lines: seq<string>, budget: Option<nat>) {
    budget.Some? ==> |Join(lines, "\n")| <= budget.value
  }

  /** Adds items until the next one would exceed the budget. */
  method ShowItems(lines: seq<string>, items: seq<string>, budget: Option<nat>) returns (shown: seq<string>, cut: bool)
    requires Fits(lines, budget)
    ensures Fits(shown, budget) && lines <= shown <= lines + items
    ensures !cut ==> shown == lines + items
    ensures cut ==> |shown| < |lines + items| && !Fits((lines + items)[..|shown| + 1], budget)
  {
    shown := lines;
    for j := 0 to |items|
      invariant shown == lines + items[..j] && Fits(shown, budget)
    {
      var candidate := shown + [items[j]];
      assert candidate == (lines + items)[..|shown| + 1];
      if !Fits(candidate, budget) {
        return shown, true;
      }
      shown := candidate;
    }
    cut := false;
  }

  lemma ReachedLines(sections: seq<DomainSection>, i: nat)
    requires i < |sections|
    ensures DomainLines(sections[..i + 1]) == DomainLines(sections[..i]) + ItemLines(sections[i])
    ensures DomainLines(sections[..i + 1]) <= DomainLines(sections)
  {
    assert sections[..i + 1][..i] == sections[..i];
    DomainLinesAreAPrefix(sections, i + 1);
  }

  lemma CutIsLongest(all: seq<string>, reached: seq<string>, lines: seq<string>, budget: Option<nat>)
    requires reached <= all && lines <= reached && |lines| < |reached|
    requires Fits(lines, budget) && !Fits(reached[..|lines| + 1], budget)
    ensures IsLongestShown(all, budget, |lines|) && all[..|lines|] == lines
  {
    assert reached[..|lines| + 1] == all[..|lines| + 1] && lines == all[..|lines|];
    NothingLongerFits(all, budget.value, |lines|, reached[..|lines| + 1]);
  }

  /** Shows lines until the next one would exceed the budget. */
  method RenderDigestSections(sections: seq<DomainSection>, budget: Option<nat>) returns (text: string, ghost shown: nat)
    ensures IsLongestShown(DomainLines(sections), budget, shown)
    ensures text == Join(DomainLines(sections)[..shown], "\n")
  {
    ghost var all := DomainLines(sections);
    var lines: seq<string> := [];
    for i := 0 to |sections|
      invariant lines == DomainLines(sections[..i]) && Fits(lines, budget)
    {
      ReachedLines(sections, i);
      ghost var reached := DomainLines(sections[..i + 1]);
      var cut;
      lines, cut := ShowItems(lines, ItemLines(sections[i]), budget);
      if cut {
        CutIsLongest(all, reached, lines, budget);
        return Join(lines, "\n"), |lines|;
      }
    }
    assert sections[..|sections|] == sections && all[..|all|] == all;
    return Join(lines, "\n"), |all|;
  }

  // ---------------------------------------------------------------------------
  // Composing

  /** The payload of a scheduled run. */
  function SchedulePayload(title: string, id: string, firedAt: string, prompt: string): string {
    "Schedule \"" + title + "\" (" + id + ") fired at " + firedAt + ". Instructions:\n" + prompt
  }

  function MessageHeader(chat: bool): string {
    if chat then "== Message from the human ==\n" else "== Scheduled run ==\n"
  }

  const RECENT_HEADER := "== Recent conversation ==\n"

  /** The parts that precede the digest, each with its separator. */
  function Context(brief: string, setup: bool, recent: string): string {
    (if setup then brief + "\n\n" else "")
    + (if recent != "" then RECENT_HEADER + recent + "\n\n" else "")
  }

  function ComposeInput(chat: bool, digest: string, payload: string, context: string): string {
    context + digest + "\n\n" + MessageHeader(chat) + payload
  }

  function WithExtras(digest: string, extras: string): string {
    if extras == "" then digest else digest + "\n" + extras
  }

  function DigestBudget(context: nat, payload: nat): nat {
    if context + payload + FRAMING_RESERVE <= HOST_INPUT_LIMIT then HOST_INPUT_LIMIT - context - payload - FRAMING_RESERVE
    else 0
  }

  function BaseBudget(digestBudget: nat, extras: nat): nat {
    var taken := extras + if extras > 0 then 1 else 0;
    if taken <= digestBudget then digestBudget - taken else 0
  }

  /** What a composed input is made of. */
  ghost predicate IsComposed(
    text: string, chat: bool, r: Rows, payload: string, context: string, domain: Option<seq<DomainSection>>,
    v: View, extras: string, shown: nat)
  {
    && IsTrimmed(v, FullView(r)) && TrimmedInOrder(v, FullView(r))
    && NotTrimmedTooFar(v, FullView(r), Render, BaseBudget(DigestBudget(|context|, |payload|), |extras|))
    && text == ComposeInput(chat, WithExtras(Render(v), extras), payload, context)
    && (domain.None? ==> extras == "")
    && (domain.Some? ==>
        && IsLongestShown(DomainLines(domain.value), Some(DigestBudget(|context|, |payload|) / 2), shown)
        && extras == Join(DomainLines(domain.value)[..shown], "\n"))
  }

  /**
   * What the agent is sent, to the letter: the brief while there is no goal, the
   * recent conversation if there is one, the digest with its extras, and last the
   * message or the schedule's instructions under their heading.
   */
  ghost predicate ReadsAs(
    text: string, chat: bool, goal: string, brief: string, recent: string, digest: string, extras: string, payload: string)
  {
    text ==
      (if AllSpace(goal) then brief + "\n\n" else "")
      + (if recent == "" then "" else "== Recent conversation ==\n" + recent + "\n\n")
      + digest + (if extras == "" then "" else "\n" + extras)
      + (if chat then "\n\n== Message from the human ==\n" else "\n\n== Scheduled run ==\n") + payload
  }

  /** Where the parentheses stand does not matter. */
  lemma Regrouped(a: string, b: string, g: string, e: string, n: string, h: string, p: string)
    ensures a + b + (g + e) + n + h + p == a + b + g + e + (n + h) + p
  {
    assert a + b + (g + e) == a + b + g + e;
    assert (a + b + g + e) + n + h == (a + b + g + e) + (n + h);
  }

  lemma ChatHeading()
    ensures "\n\n" + MessageHeader(true) == "\n\n== Message from the human ==\n"
  {
  }

  lemma ScheduledHeading()
    ensures "\n\n" + MessageHeader(false) == "\n\n== Scheduled run ==\n"
  {
  }

  lemma ExtrasFollow(digest: string, extras: string)
    ensures WithExtras(digest, extras) == digest + (if extras == "" then "" else "\n" + extras)
  {
    assert digest + "\n" + extras == digest + ("\n" + extras);
    assert digest + "" == digest;
  }

  lemma BlankGoals(goal: string)
    ensures Strip(goal) == "" <==> AllSpace(goal)
  {
    StripIsExact(goal);
    NothingIsLeftOfBlanks(goal, Strip(goal));
  }

  lemma ComposedReadsAs(chat: bool, goal: string, brief: string, recent: string, digest: string, extras: string, payload: string)
    ensures ReadsAs(ComposeInput(chat, WithExtras(digest, extras), payload, Context(brief, Strip(goal) == "", recent)),
                    chat, goal, brief, recent, digest, extras, payload)
  {
    BlankGoals(goal);
    ChatHeading();
    ScheduledHeading();
    ExtrasFollow(digest, extras);
    Regrouped(if AllSpace(goal) then brief + "\n\n" else "",
              if recent == "" then "" else "== Recent conversation ==\n" + recent + "\n\n",
              digest, if extras == "" then "" else "\n" + extras, "\n\n", MessageHeader(chat), payload);
  }

  /** The input of one host task, or an error when it does not fit the host's limit. */
  method ComposeTaskInput(
    chat: bool, r: Rows, payload: string, brief: string, recent: string, domain: Option<seq<DomainSection>>)
    returns (result: Result<string, nat>, ghost v: View, ghost extras: string, ghost shown: nat)
    ensures result.Ok? ==>
      |result.value| <= HOST_INPUT_LIMIT
      && IsComposed(result.value, chat, r, payload, Context(brief, Strip(r.goal) == "", recent), domain, v, extras, shown)
    ensures result.Ok? ==> ReadsAs(result.value, chat, r.goal, brief, recent, Render(v), extras, payload)
    ensures result.Error? ==> result.error > HOST_INPUT_LIMIT
    ensures RowsWithinCaps(r) && |brief| <= BRIEF_LIMIT && |payload| <= PAYLOAD_LIMIT && |recent| <= RECENT_LIMIT ==> result.Ok?
  {
    var context := Context(brief, Strip(r.goal) == "", recent);
    var digestBudget := DigestBudget(|context|, |payload|);
    var rendered := "";
    shown := 0;
    if domain.Some? {
      rendered, shown := RenderDigestSections(domain.value, Some(digestBudget / 2));
    }
    extras := rendered;
    var digest, view := BuildDigest(r, Some(BaseBudget(digestBudget, |rendered|)));
    v := view;
    var text := ComposeInput(chat, WithExtras(digest, rendered), payload, context);
    ComposedReadsAs(chat, r.goal, brief, recent, Render(view), rendered, payload);
    if |text| > HOST_INPUT_LIMIT {
      if RowsWithinCaps(r) && |brief| <= BRIEF_LIMIT && |payload| <= PAYLOAD_LIMIT && |recent| <= RECENT_LIMIT {
        CappedRowsFit(chat, r, view, rendered, payload, brief, recent);
      }
      return Error(|text|), v, extras, shown;
    }
    return Ok(text), v, extras, shown;
  }

  // ---------------------------------------------------------------------------
  // Sizes

  const BRIEF_LIMIT := 5_000
  const PAYLOAD_LIMIT := 20_000
  const RECENT_LIMIT := 3_816
  const FLOOR_SIZE := 9_000

  /** The composed text has room for its fixed parts in the framing reserve. */
  lemma ComposedSize(chat: bool, digest: string, extras: string, payload: string, context: string)
    requires |context| <= BRIEF_LIMIT + RECENT_LIMIT + 30 && |payload| <= PAYLOAD_LIMIT
    requires |extras| <= DigestBudget(|context|, |payload|) / 2
    requires |digest| <= BaseBudget(DigestBudget(|context|, |payload|), |extras|) || |digest| <= FLOOR_SIZE
    ensures |ComposeInput(chat, WithExtras(digest, extras), payload, context)| <= HOST_INPUT_LIMIT
  {
    assert |MessageHeader(chat)| <= 29;
  }

  lemma ContextSize(brief: string, setup: bool, recent: string)
    requires |brief| <= BRIEF_LIMIT && |recent| <= RECENT_LIMIT
    ensures |Context(brief, setup, recent)| <= BRIEF_LIMIT + RECENT_LIMIT + 30
  {
    assert |RECENT_HEADER| == 26;
  }

  /** A digest that is within its budget or at the floor leaves room for everything else. */
  lemma CappedRowsFit(chat: bool, r: Rows, v: View, extras: string, payload: string, brief: string, recent: string)
    requires RowsWithinCaps(r) && IsTrimmed(v, FullView(r))
    requires |brief| <= BRIEF_LIMIT && |payload| <= PAYLOAD_LIMIT && |recent| <= RECENT_LIMIT
    requires var budget := DigestBudget(|Context(brief, Strip(r.goal) == "", recent)|, |payload|);
      |extras| <= budget / 2 && (|Render(v)| <= BaseBudget(budget, |extras|) || AllAtFloor(v))
    ensures |ComposeInput(chat, WithExtras(Render(v), extras), payload, Context(brief, Strip(r.goal) == "", recent))|
            <= HOST_INPUT_LIMIT
  {
    if AllAtFloor(v) {
      FloorBound(r, v);
    }
    ContextSize(brief, Strip(r.goal) == "", recent);
    ComposedSize(chat, Render(v), extras, payload, Context(brief, Strip(r.goal) == "", recent));
  }

  predicate ShortSchedule(s: ScheduleRow) {
    && |s.id| <= 48 && |s.title| <= 120 && (s.everyMinutes.Some? ==> s.everyMinutes.value < 100_000)
    && (s.nextRunAt.Some? ==> |s.nextRunAt.value| <= 20) && (s.lastRunStatus.Some? ==> |s.lastRunStatus.value| <= 40)
  }

  predicate ShortTool(t: ToolRow) {
    |t.id| <= 48 && |t.title| <= 120 && |t.priority| <= 12 && |t.status| <= 15 && |t.note| <= 200
  }

  predicate ShortArtifact(a: ArtifactRow) {
    |a.id| <= 48 && |a.title| <= 120 && a.dataChars < 100_000 && |a.updatedAt| <= 20
  }

  predicate ShortMemory(m: MemoryRow) {
    |m.id| <= 48 && |m.content| <= 300
  }

  /** The caps of the tables, on the rows the digest reads. */
  predicate RowsWithinCaps(r: Rows) {
    && |r.goal| <= 500 && |r.measurement| <= 500
    && |r.schedules| <= 20 && (forall s :: s in r.schedules ==> ShortSchedule(s))
    && |r.tools| <= 30 && (forall t :: t in r.tools ==> ShortTool(t))
    && |r.artifacts| <= 100 && (forall a :: a in r.artifacts ==> ShortArtifact(a))
    && |r.memories| <= 40 && (forall m :: m in r.memories ==> ShortMemory(m))
  }

  lemma ShortDecimal(n: nat)
    requires n < 100_000
    ensures |Decimal(n)| <= 5
  {
    DecimalSize(n);
  }

  lemma CadenceSize(s: ScheduleRow)
    requires ShortSchedule(s)
    ensures |CadenceText(s.everyMinutes, s.nextRunAt)| <= 28
  {
    if s.everyMinutes.Some? {
      var m := s.everyMinutes.value;
      ShortDecimal(m);
      ShortDecimal(m / 60);
      ShortDecimal(m / (24 * 60));
    }
  }

  lemma ScheduleLineSize(s: ScheduleRow)
    requires ShortSchedule(s)
    ensures |ScheduleLine(s)| <= 286
  {
    CadenceSize(s);
  }

  lemma ArtifactLineSize(a: ArtifactRow)
    requires ShortArtifact(a)
    ensures |ArtifactLine(a)| <= 235
  {
    DecimalSize(a.dataChars);
  }

  lemma ToolLineSize(t: ToolRow)
    requires ShortTool(t)
    ensures |ToolLine(t)| <= 407
  {
  }

  lemma MemoryLineSize(m: MemoryRow)
    requires ShortMemory(m)
    ensures |MemoryLine(m)| <= 352
  {
  }

  lemma HeaderSize(name: string, count: nat, max: nat)
    requires |name| <= 9 && count < 1_000 && max < 1_000
    ensures |Header(name, count, max)| <= 27
  {
    DecimalSize(count);
    DecimalSize(max);
  }

  /** A section at its floor. */
  lemma SectionFloor(s: Section, width: nat)
    requires AtFloor(s) && |s.header| <= 27 && s.hidden < 1_000 && width >= 8
    requires forall i :: 0 <= i < |s.lines| ==> |s.lines[i]| <= width
    ensures Total(SectionLines(s)) <= 28 + 6 * (width + 1) + 18
  {
    DecimalSize(s.hidden);
    var items := if s.lines == [] then ["- (none)"] else s.lines;
    var rest := if s.hidden > 0 then ["- ...and " + Decimal(s.hidden) + " more"] else [];
    TotalBound([s.header], 1, 27);
    TotalBound(items, 6, width);
    TotalBound(rest, 1, 17);
    TotalOfConcat([s.header], items);
    TotalOfConcat([s.header] + items, rest);
  }

  lemma TopSize(v: View)
    requires |v.goal| <= 500 && |v.measurement| <= 500
    ensures Total(TopLines(v)) <= 22 + 507 + 514
  {
    var top := TopLines(v);
    TotalBound([top[0]], 1, 21);
    TotalBound([top[1]], 1, 506);
    TotalBound([top[2]], 1, 513);
    TotalOfConcat([top[0]], [top[1]]);
    TotalOfConcat([top[0]] + [top[1]], [top[2]]);
    assert [top[0]] + [top[1]] + [top[2]] == top;
  }

  lemma BodySize(sections: seq<Section>)
    requires |sections| == 4
    ensures Total(BodyLines(sections)) == Total(SectionLines(sections[0])) + Total(SectionLines(sections[1]))
                                        + Total(SectionLines(sections[2])) + Total(SectionLines(sections[3]))
  {
    TotalOfConcat(SectionLines(sections[0]), BodyLines(sections[1..]));
    TotalOfConcat(SectionLines(sections[1]), BodyLines(sections[1..][1..]));
    TotalOfConcat(SectionLines(sections[2]), BodyLines(sections[1..][1..][1..]));
    TotalOfConcat(SectionLines(sections[3]), BodyLines(sections[1..][1..][1..][1..]));
  }

  /** The digest with every section at its floor. */
  lemma FloorBound(r: Rows, v: View)
    requires RowsWithinCaps(r) && IsTrimmed(v, FullView(r)) && AllAtFloor(v)
    ensures |Render(v)| <= FLOOR_SIZE
  {
    ShownAndHiddenAreAll(r, v);
    ScheduleFloor(r, v.sections[SCHEDULES]);
    ToolFloor(r, v.sections[TOOLS]);
    ArtifactFloor(r, v.sections[ARTIFACTS]);
    MemoryFloor(r, v.sections[MEMORIES]);
    TopSize(v);
    BodySize(v.sections);
    TotalOfConcat(TopLines(v), BodyLines(v.sections));
    JoinSize(TopLines(v) + BodyLines(v.sections));
  }

  lemma ScheduleFloor(r: Rows, s: Section)
    requires RowsWithinCaps(r) && AtFloor(s) && |s.lines| + s.hidden == |r.schedules|
    requires s.header == Header("Schedules", |r.schedules|, 20)
    requires forall i :: 0 <= i < |s.lines| ==> s.lines[i] == ScheduleLine(r.schedules[i])
    ensures Total(SectionLines(s)) <= 28 + 6 * 287 + 18
  {
    HeaderSize("Schedules", |r.schedules|, 20);
    forall i | 0 <= i < |s.lines| ensures |s.lines[i]| <= 286 { ScheduleLineSize(r.schedules[i]); }
    SectionFloor(s, 286);
  }

  lemma ToolFloor(r: Rows, s: Section)
    requires RowsWithinCaps(r) && AtFloor(s) && |s.lines| + s.hidden == |r.tools|
    requires s.header == Header("Tools", |r.tools|, 30)
    requires forall i :: 0 <= i < |s.lines| ==> s.lines[i] == ToolLine(r.tools[i])
    ensures Total(SectionLines(s)) <= 28 + 6 * 408 + 18
  {
    HeaderSize("Tools", |r.tools|, 30);
    forall i | 0 <= i < |s.lines| ensures |s.lines[i]| <= 407 { ToolLineSize(r.tools[i]); }
    SectionFloor(s, 407);
  }

  lemma ArtifactFloor(r: Rows, s: Section)
    requires RowsWithinCaps(r) && AtFloor(s) && |s.lines| + s.hidden == |r.artifacts|
    requires s.header == Header("Artifacts", |r.artifacts|, 100)
    requires forall i :: 0 <= i < |s.lines| ==> s.lines[i] == ArtifactLine(r.artifacts[i])
    ensures Total(SectionLines(s)) <= 28 + 6 * 236 + 18
  {
    HeaderSize("Artifacts", |r.artifacts|, 100);
    forall i | 0 <= i < |s.lines| ensures |s.lines[i]| <= 235 { ArtifactLineSize(r.artifacts[i]); }
    SectionFloor(s, 235);
  }

  lemma MemoryFloor(r: Rows, s: Section)
    requires RowsWithinCaps(r) && AtFloor(s) && |s.lines| + s.hidden == |r.memories|
    requires s.header == Header("Memories", |r.memories|, 40)
    requires forall i :: 0 <= i < |s.lines| ==> s.lines[i] == MemoryLine(r.memories[i])
    ensures Total(SectionLines(s)) <= 28 + 6 * 353 + 18
  {
    HeaderSize("Memories", |r.memories|, 40);
    forall i | 0 <= i < |s.lines| ensures |s.lines[i]| <= 352 { MemoryLineSize(r.memories[i]); }
    SectionFloor(s, 352);
  }
}
