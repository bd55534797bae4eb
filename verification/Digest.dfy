/**
 * The workspace digest and the composed task input: trimming to a budget, and
 * the bound on what is sent to the host.
 */
module Digest {
  import opened Prelude

  const DIGEST_SCHEDULE_LINES := 20
  const DIGEST_ARTIFACT_LINES := 60
  const DIGEST_SECTION_FLOOR := 6

  // ---------------------------------------------------------------------------
  // Text

  function Join(lines: seq<string>, separator: string): (text: string)
  {
    if lines == [] then ""
    else if |lines| == 1 then lines[0]
    else Join(lines[..|lines| - 1], separator) + separator + lines[|lines| - 1]
  }

  /** The characters of some lines, each with its line end. */
  function Total(lines: seq<string>): nat {
    if lines == [] then 0 else Total(lines[..|lines| - 1]) + |lines[|lines| - 1]| + 1
  }

  lemma {:induction false} JoinSize(lines: seq<string>)
    requires lines != []
    ensures |Join(lines, "\n")| == Total(lines) - 1
  {
    if |lines| == 1 {
      assert lines[..0] == [];
    } else {
      JoinSize(lines[..|lines| - 1]);
    }
  }

  lemma {:induction false} TotalOfConcat(a: seq<string>, b: seq<string>)
    ensures Total(a + b) == Total(a) + Total(b)
    decreases |b|
  {
    if b == [] {
      assert a + b == a;
    } else {
      assert (a + b)[..|a + b| - 1] == a + b[..|b| - 1];
      TotalOfConcat(a, b[..|b| - 1]);
    }
  }

  /** `n` lines of at most `width` characters. */
  lemma {:induction false} TotalBound(lines: seq<string>, n: nat, width: nat)
    requires |lines| <= n && forall i :: 0 <= i < |lines| ==> |lines[i]| <= width
    ensures Total(lines) <= n * (width + 1)
    decreases |lines|
  {
    if lines != [] {
      TotalBound(lines[..|lines| - 1], n - 1, width);
      assert n * (width + 1) == (n - 1) * (width + 1) + width + 1;
    }
  }

  function Decimal(n: nat): (text: string)
    ensures text != ""
  {
    if n < 10 then [Digit(n)] else Decimal(n / 10) + [Digit(n % 10)]
  }

  function Digit(n: nat): char
    requires n < 10
  {
    "0123456789"[n]
  }

  /** Numbers below 100,000 have at most five digits. */
  lemma DecimalSize(n: nat)
    ensures n < 100 ==> |Decimal(n)| <= 2
    ensures n < 1_000 ==> |Decimal(n)| <= 3
    ensures n < 100_000 ==> |Decimal(n)| <= 5
  {
    if n < 100_000 {
      assert n >= 10 ==> |Decimal(n)| == |Decimal(n / 10)| + 1;
      assert n >= 100 ==> |Decimal(n / 10)| == |Decimal(n / 10 / 10)| + 1;
      assert n >= 1_000 ==> |Decimal(n / 10 / 10)| == |Decimal(n / 10 / 10 / 10)| + 1;
      assert n >= 10_000 ==> |Decimal(n / 10 / 10 / 10)| == |Decimal(n / 10 / 10 / 10 / 10)| + 1;
    }
  }

  // ---------------------------------------------------------------------------
  // Rows and their lines

  datatype ScheduleRow = ScheduleRow(
    id: string, title: string, everyMinutes: Option<nat>, nextRunAt: Option<string>,
    enabled: bool, lastRunStatus: Option<string>)
  datatype ToolRow = ToolRow(id: string, title: string, priority: string, status: string, note: string)
  datatype ArtifactRow = ArtifactRow(id: string, title: string, hasView: bool, dataChars: nat, updatedAt: string)
  datatype MemoryRow = MemoryRow(id: string, content: string)

  datatype Rows = Rows(
    goal: string, measurement: string,
    schedules: seq<ScheduleRow>, tools: seq<ToolRow>, artifacts: seq<ArtifactRow>, memories: seq<MemoryRow>)

  function CadenceText(everyMinutes: Option<nat>, nextRunAt: Option<string>): string {
    match everyMinutes
    case None => if nextRunAt.Some? && nextRunAt.value != "" then "once at " + nextRunAt.value else "once (already ran)"
    case Some(m) =>
      if m % (24 * 60) == 0 then
        var days := m / (24 * 60);
        if days == 1 then "every day" else "every " + Decimal(days) + " days"
      else if m % 60 == 0 then
        var hours := m / 60;
        if hours == 1 then "every hour" else "every " + Decimal(hours) + " hours"
      else "every " + Decimal(m) + " minutes"
  }

  function ScheduleLine(s: ScheduleRow): string {
    "- " + s.id + ": \"" + s.title + "\" " + CadenceText(s.everyMinutes, s.nextRunAt) + ", "
    + (if s.enabled then "enabled" else "paused")
    + (if s.nextRunAt.Some? && s.nextRunAt.value != "" then ", next " + s.nextRunAt.value else "")
    + (if s.lastRunStatus.Some? && s.lastRunStatus.value != "" then ", last " + s.lastRunStatus.value else "")
  }

  function ToolLine(t: ToolRow): string {
    "- " + t.id + ": \"" + t.title + "\" " + t.priority + ", " + t.status
    + (if t.note != "" then " \U{2014} " + t.note else "")
  }

  function ArtifactLine(a: ArtifactRow): string {
    "- " + a.id + ": \"" + a.title + "\" updated " + a.updatedAt + ", data " + Decimal(a.dataChars) + " chars, "
    + (if a.hasView then "renders view" else "no view")
  }

  function MemoryLine(m: MemoryRow): string {
    "- " + m.id + ": " + m.content
  }

  // ---------------------------------------------------------------------------
  // Sections

  /** `hidden` counts the rows of the section that are not among its lines. */
  datatype Section = Section(header: string, lines: seq<string>, hidden: nat)

  /** Four sections, in display order: schedules, tools, artifacts, memories. */
  datatype View = View(goal: string, measurement: string, sections: seq<Section>)

  const SCHEDULES := 0
  const TOOLS := 1
  const ARTIFACTS := 2
  const MEMORIES := 3

  function Header(name: string, count: nat, max: nat): string {
    name + " (" + Decimal(count) + " of max " + Decimal(max) + "):"
  }

  function Least(a: nat, b: nat): nat {
    if a < b then a else b
  }

  function FullView(r: Rows): (v: View)
    ensures |v.sections| == 4
  {
    var schedules := Least(|r.schedules|, DIGEST_SCHEDULE_LINES);
    var artifacts := Least(|r.artifacts|, DIGEST_ARTIFACT_LINES);
    View(r.goal, r.measurement, [
      Section(Header("Schedules", |r.schedules|, 20),
              seq(schedules, i requires 0 <= i < schedules => ScheduleLine(r.schedules[i])), |r.schedules| - schedules),
      Section(Header("Tools", |r.tools|, 30),
              seq(|r.tools|, i requires 0 <= i < |r.tools| => ToolLine(r.tools[i])), 0),
      Section(Header("Artifacts", |r.artifacts|, 100),
              seq(artifacts, i requires 0 <= i < artifacts => ArtifactLine(r.artifacts[i])), |r.artifacts| - artifacts),
      Section(Header("Memories", |r.memories|, 40),
              seq(|r.memories|, i requires 0 <= i < |r.memories| => MemoryLine(r.memories[i])), 0)])
  }

  function SectionLines(s: Section): (lines: seq<string>)
    ensures lines != []
  {
    [s.header]
    + (if s.lines == [] then ["- (none)"] else s.lines)
    + (if s.hidden > 0 then ["- ...and " + Decimal(s.hidden) + " more"] else [])
  }

  function OrNotSet(s: string): string {
    if s == "" then "(not set)" else s
  }

  function TopLines(v: View): (lines: seq<string>)
    ensures lines != []
  {
    ["== Workspace state ==", "Goal: " + OrNotSet(v.goal), "Measurement: " + OrNotSet(v.measurement)]
  }

  function BodyLines(sections: seq<Section>): seq<string> {
    if sections == [] then [] else SectionLines(sections[0]) + BodyLines(sections[1..])
  }

  function Render(v: View): string {
    Join(TopLines(v) + BodyLines(v.sections), "\n")
  }

  // ---------------------------------------------------------------------------
  // Trimming

  function DropLast(v: View, k: nat): View
    requires k < |v.sections| && v.sections[k].lines != []
  {
    var s := v.sections[k];
    v.(sections := v.sections[k := s.(lines := s.lines[..|s.lines| - 1], hidden := s.hidden + 1)])
  }

  /** The section that is trimmed in round `round`. */
  function TrimOrder(round: nat): (k: nat)
    requires round < 4
    ensures k < 4
  {
    [ARTIFACTS, TOOLS, MEMORIES, SCHEDULES][round]
  }

  /** `s` shows a prefix of the lines of `full`, at least the floor of them, and accounts for all rows. */
  predicate SectionTrimmed(s: Section, full: Section) {
    && s.header == full.header && s.lines <= full.lines
    && s.hidden + |s.lines| == full.hidden + |full.lines|
    && (s.lines == full.lines || |s.lines| >= DIGEST_SECTION_FLOOR)
  }

  predicate IsTrimmed(v: View, full: View) {
    && |v.sections| == |full.sections| == 4
    && v.goal == full.goal && v.measurement == full.measurement
    && (forall k :: 0 <= k < 4 ==> SectionTrimmed(v.sections[k], full.sections[k]))
  }

  predicate AtFloor(s: Section) {
    |s.lines| <= DIGEST_SECTION_FLOOR
  }

  /** Sections are trimmed in a fixed order, each only once those before it are at the floor. */
  predicate TrimmedInOrder(v: View, full: View)
    requires |v.sections| == |full.sections| == 4
  {
    forall a, b :: 0 <= a < b < 4 && v.sections[TrimOrder(b)] != full.sections[TrimOrder(b)]
      ==> AtFloor(v.sections[TrimOrder(a)])
  }

  predicate AllAtFloor(v: View) {
    forall k :: 0 <= k < |v.sections| ==> AtFloor(v.sections[k])
  }

  /** No line was dropped without need: before the last drop the text was over the budget. */
  ghost predicate NotTrimmedTooFar(v: View, full: View, render: View -> string, budget: nat) {
    v == full
    || exists w: View, k: nat :: k < |w.sections| && w.sections[k].lines != []
         && v == DropLast(w, k) && |render(w)| > budget
  }

  /** Sections other than those trimmed so far are untouched. */
  predicate Untouched(v: View, full: View, from: nat)
    requires |v.sections| == |full.sections| == 4
  {
    forall b :: from <= b < 4 ==> v.sections[TrimOrder(b)] == full.sections[TrimOrder(b)]
  }

  predicate FlooredBefore(v: View, round: nat)
    requires |v.sections| == 4 && round <= 4
  {
    forall a :: 0 <= a < round ==> AtFloor(v.sections[TrimOrder(a)])
  }

  lemma DropLastTrims(v: View, full: View, round: nat)
    requires IsTrimmed(v, full) && round < 4 && |v.sections[TrimOrder(round)].lines| > DIGEST_SECTION_FLOOR
    requires FlooredBefore(v, round) && Untouched(v, full, round + 1)
    ensures var w := DropLast(v, TrimOrder(round));
      IsTrimmed(w, full) && FlooredBefore(w, round) && Untouched(w, full, round + 1)
  {
  }

  /** Drops lines of one section from its tail until the text fits or the section is at its floor. */
  method TrimSection(start: View, ghost full: View, render: View -> string, budget: nat, round: nat)
    returns (view: View, text: string)
    requires round < 4 && IsTrimmed(start, full) && |render(start)| > budget
    requires FlooredBefore(start, round) && Untouched(start, full, round)
    requires NotTrimmedTooFar(start, full, render, budget)
    ensures IsTrimmed(view, full) && text == render(view) && NotTrimmedTooFar(view, full, render, budget)
    ensures FlooredBefore(view, round) && Untouched(view, full, round + 1)
    ensures |text| <= budget || AtFloor(view.sections[TrimOrder(round)])
  {
    var k := TrimOrder(round);
    view := start;
    text := render(view);
    while |view.sections[k].lines| > DIGEST_SECTION_FLOOR && |text| > budget
      invariant IsTrimmed(view, full) && text == render(view) && NotTrimmedTooFar(view, full, render, budget)
      invariant FlooredBefore(view, round) && Untouched(view, full, round + 1)
      decreases |view.sections[k].lines|
    {
      ghost var before := view;
      DropLastTrims(view, full, round);
      view := DropLast(view, k);
      text := render(view);
      assert view == DropLast(before, k) && |render(before)| > budget;
    }
  }

  /** Trims the sections in their fixed order until the text fits or every section is at its floor. */
  method TrimToBudget(full: View, render: View -> string, budget: nat) returns (view: View, text: string)
    requires |full.sections| == 4
    ensures IsTrimmed(view, full) && text == render(view)
    ensures |text| <= budget || AllAtFloor(view)
    ensures TrimmedInOrder(view, full) && NotTrimmedTooFar(view, full, render, budget)
  {
    view := full;
    text := render(view);
    if |text| <= budget {
      return;
    }
    for round := 0 to 4
      invariant IsTrimmed(view, full) && text == render(view) && |text| > budget
      invariant FlooredBefore(view, round) && Untouched(view, full, round)
      invariant NotTrimmedTooFar(view, full, render, budget)
    {
      view, text := TrimSection(view, full, render, budget, round);
      if |text| <= budget {
        return;
      }
    }
    assert AtFloor(view.sections[TrimOrder(0)]) && AtFloor(view.sections[TrimOrder(1)]);
    assert AtFloor(view.sections[TrimOrder(2)]) && AtFloor(view.sections[TrimOrder(3)]);
  }

  /** The digest: with a budget, item lines are dropped from the tails of the sections where needed. */
  method BuildDigest(r: Rows, budget: Option<nat>) returns (text: string, ghost v: View)
    ensures IsTrimmed(v, FullView(r)) && text == Render(v)
    ensures budget.None? ==> v == FullView(r)
    ensures budget.Some? ==> |text| <= budget.value || AllAtFloor(v)
    ensures budget.Some? ==> TrimmedInOrder(v, FullView(r)) && NotTrimmedTooFar(v, FullView(r), Render, budget.value)
  {
    if budget.None? {
      text, v := Render(FullView(r)), FullView(r);
    } else {
      var view;
      view, text := TrimToBudget(FullView(r), Render, budget.value);
      v := view;
    }
  }

  lemma JoinThree(a: string, b: string, c: string)
    ensures Join([a, b, c], "\n") == a + "\n" + b + "\n" + c
  {
    assert [a, b, c][..2] == [a, b] && [a, b][..1] == [a];
    assert Join([a], "\n") == a;
    assert Join([a, b], "\n") == a + "\n" + b;
  }

  /** However much is trimmed, the text starts with the whole goal and the whole measurement. */
  lemma GoalAndMeasurementSurvive(r: Rows, v: View)
    requires IsTrimmed(v, FullView(r))
    ensures "== Workspace state ==" + "\n" + ("Goal: " + OrNotSet(r.goal)) + "\n"
            + ("Measurement: " + OrNotSet(r.measurement)) + "\n" <= Render(v)
  {
    var top := TopLines(v);
    assert v.goal == r.goal && v.measurement == r.measurement;
    assert top == ["== Workspace state ==", "Goal: " + OrNotSet(r.goal), "Measurement: " + OrNotSet(r.measurement)];
    assert BodyLines(v.sections) != [];
    JoinPrefix(top, BodyLines(v.sections));
    JoinThree(top[0], top[1], top[2]);
    assert [top[0], top[1], top[2]] == top;
  }

  lemma {:induction false} JoinPrefix(a: seq<string>, b: seq<string>)
    requires a != [] && b != []
    ensures Join(a, "\n") + "\n" <= Join(a + b, "\n")
    decreases |b|
  {
    var c := a + b[..|b| - 1];
    assert (a + b)[..|a + b| - 1] == c;
    assert Join(a + b, "\n") == Join(c, "\n") + "\n" + b[|b| - 1];
    if |b| == 1 {
      assert c == a;
    } else {
      JoinPrefix(a, b[..|b| - 1]);
    }
  }

  /** The rows that a section shows and those that it counts as hidden are all its rows. */
  lemma ShownAndHiddenAreAll(r: Rows, v: View)
    requires IsTrimmed(v, FullView(r))
    ensures |v.sections[SCHEDULES].lines| + v.sections[SCHEDULES].hidden == |r.schedules|
    ensures |v.sections[TOOLS].lines| + v.sections[TOOLS].hidden == |r.tools|
    ensures |v.sections[ARTIFACTS].lines| + v.sections[ARTIFACTS].hidden == |r.artifacts|
    ensures |v.sections[MEMORIES].lines| + v.sections[MEMORIES].hidden == |r.memories|
    ensures forall i :: 0 <= i < |v.sections[SCHEDULES].lines| ==> v.sections[SCHEDULES].lines[i] == ScheduleLine(r.schedules[i])
    ensures forall i :: 0 <= i < |v.sections[TOOLS].lines| ==> v.sections[TOOLS].lines[i] == ToolLine(r.tools[i])
    ensures forall i :: 0 <= i < |v.sections[ARTIFACTS].lines| ==> v.sections[ARTIFACTS].lines[i] == ArtifactLine(r.artifacts[i])
    ensures forall i :: 0 <= i < |v.sections[MEMORIES].lines| ==> v.sections[MEMORIES].lines[i] == MemoryLine(r.memories[i])
  {
    var full := FullView(r);
    assert SectionTrimmed(v.sections[SCHEDULES], full.sections[SCHEDULES]);
    assert SectionTrimmed(v.sections[TOOLS], full.sections[TOOLS]);
    assert SectionTrimmed(v.sections[ARTIFACTS], full.sections[ARTIFACTS]);
    assert SectionTrimmed(v.sections[MEMORIES], full.sections[MEMORIES]);
  }
}
