/** What the digest says, line by line: its numbers, its lines and its sections, and which lines go first. */
module DigestText {
  import opened Prelude
  import opened Digest

  // ---------------------------------------------------------------------------
  // Numbers and lines read back

  /** The number that decimal digits denote. */
  function Denoted(text: string): int {
    if text == "" then 0 else 10 * Denoted(text[..|text| - 1]) + (text[|text| - 1] as int - '0' as int)
  }

  lemma DigitDenotes(n: nat)
    requires n < 10
    ensures Digit(n) as int - '0' as int == n
  {
  }

  lemma {:induction false} DecimalReadsBack(n: nat)
    ensures Denoted(Decimal(n)) == n
    ensures forall i :: 0 <= i < |Decimal(n)| ==> '0' <= Decimal(n)[i] <= '9'
    ensures |Decimal(n)| > 1 ==> Decimal(n)[0] != '0'
  {
    DigitDenotes(n % 10);
    if n < 10 {
      assert Denoted([Digit(n)][..0]) == 0;
    } else {
      DecimalReadsBack(n / 10);
      assert Decimal(n)[..|Decimal(n)| - 1] == Decimal(n / 10);
      assert |Decimal(n / 10)| == 1 ==> Denoted(Decimal(n / 10)[..0]) == 0;
    }
  }

  /** The lines of a text. */
  function SplitLines(text: string): (lines: seq<string>)
    ensures lines != []
  {
    if text == "" then [""]
    else
      var before := SplitLines(text[..|text| - 1]);
      var c := text[|text| - 1];
      if c == '\n' then before + [""] else before[..|before| - 1] + [before[|before| - 1] + [c]]
  }

  lemma SplitSnoc(text: string, c: char, before: seq<string>, last: string)
    requires SplitLines(text) == before + [last]
    ensures c == '\n' ==> SplitLines(text + [c]) == before + [last] + [""]
    ensures c != '\n' ==> SplitLines(text + [c]) == before + [last + [c]]
  {
    assert (text + [c])[..|text|] == text;
  }

  lemma {:induction false} OneMoreLine(text: string, line: string)
    requires '\n' !in line
    ensures SplitLines(text + "\n" + line) == SplitLines(text) + [line]
    decreases |line|
  {
    var lines := SplitLines(text);
    if line == "" {
      assert lines == lines[..|lines| - 1] + [lines[|lines| - 1]];
      SplitSnoc(text, '\n', lines[..|lines| - 1], lines[|lines| - 1]);
      assert text + "\n" + line == text + ['\n'];
    } else {
      var n := |line| - 1;
      var shorter := line[..n];
      assert line == shorter + [line[n]] && line[n] in line;
      OneMoreLine(text, shorter);
      SplitSnoc(text + "\n" + shorter, line[n], lines, shorter);
      assert text + "\n" + line == text + "\n" + shorter + [line[n]];
    }
  }

  lemma {:induction false} FirstLine(line: string)
    requires '\n' !in line
    ensures SplitLines(line) == [line]
    decreases |line|
  {
    if line != "" {
      var n := |line| - 1;
      FirstLine(line[..n]);
      assert line[..n] + [line[n]] == line && line[n] in line;
    }
  }

  lemma JoinSnoc(lines: seq<string>)
    requires |lines| > 1
    ensures Join(lines, "\n") == Join(lines[..|lines| - 1], "\n") + "\n" + lines[|lines| - 1]
  {
  }

  predicate Unbroken(lines: seq<string>) {
    forall i :: 0 <= i < |lines| ==> '\n' !in lines[i]
  }

  lemma {:induction false} JoinSplits(split: string -> seq<string>, lines: seq<string>)
    requires lines != [] && Unbroken(lines)
    requires forall line :: '\n' !in line ==> split(line) == [line]
    requires forall text, line :: '\n' !in line ==> split(text + "\n" + line) == split(text) + [line]
    ensures split(Join(lines, "\n")) == lines
    decreases |lines|
  {
    var n := |lines| - 1;
    if n > 0 {
      var before := lines[..n];
      JoinSplits(split, before);
      JoinSnoc(lines);
      assert before + [lines[n]] == lines;
    }
  }

  /** Joined lines read back. */
  lemma JoinReadsBack(lines: seq<string>)
    requires lines != [] && Unbroken(lines)
    ensures SplitLines(Join(lines, "\n")) == lines
  {
    forall line | '\n' !in line ensures SplitLines(line) == [line] {
      FirstLine(line);
    }
    forall text, line | '\n' !in line ensures SplitLines(text + "\n" + line) == SplitLines(text) + [line] {
      OneMoreLine(text, line);
    }
    JoinSplits(SplitLines, lines);
  }

  // ---------------------------------------------------------------------------
  // The digest, to the letter

  /** The lines of one section: its heading, its items, and how many rows are not shown. */
  predicate IsSectionText(lines: seq<string>, name: string, rows: nat, most: string, items: seq<string>) {
    && |items| <= rows
    && lines == [name + " (" + Decimal(rows) + " of max " + most + "):"]
              + (if items == [] then ["- (none)"] else items)
              + (if |items| < rows then ["- ...and " + Decimal(rows - |items|) + " more"] else [])
  }

  predicate IsMemoryLine(line: string, m: MemoryRow) {
    line == "- " + m.id + ": " + m.content
  }

  predicate IsToolLine(line: string, t: ToolRow) {
    line == "- " + t.id + ": \"" + t.title + "\" " + t.priority + ", " + t.status
            + (if t.note == "" then "" else " \U{2014} " + t.note)
  }

  predicate IsArtifactLine(line: string, a: ArtifactRow) {
    line == "- " + a.id + ": \"" + a.title + "\" updated " + a.updatedAt + ", data " + Decimal(a.dataChars) + " chars, "
            + (if a.hasView then "renders view" else "no view")
  }

  /** A time or a status that is missing or empty is left out. */
  predicate IsPart(part: string, title: string, value: Option<string>) {
    part == if value == None || value == Some("") then "" else ", " + title + " " + value.value
  }

  ghost predicate IsScheduleLine(line: string, s: ScheduleRow) {
    exists next, last ::
      && IsPart(next, "next", s.nextRunAt) && IsPart(last, "last", s.lastRunStatus)
      && line == "- " + s.id + ": \"" + s.title + "\" " + CadenceText(s.everyMinutes, s.nextRunAt) + ", "
                 + (if s.enabled then "enabled" else "paused") + next + last
  }

  /** Days, hours or minutes: a period is named by the largest unit that divides it. */
  lemma CadenceSays(m: nat, next: Option<string>)
    requires m > 0
    ensures m % 1_440 == 0 && m != 1_440 ==> CadenceText(Some(m), next) == "every " + Decimal(m / 1_440) + " days"
    ensures m == 1_440 ==> CadenceText(Some(m), next) == "every day"
    ensures m % 1_440 != 0 && m % 60 == 0 && m != 60 ==> CadenceText(Some(m), next) == "every " + Decimal(m / 60) + " hours"
    ensures m == 60 ==> CadenceText(Some(m), next) == "every hour"
    ensures m % 60 != 0 ==> CadenceText(Some(m), next) == "every " + Decimal(m) + " minutes"
  {
    if m % 1_440 == 0 {
      assert m / 1_440 == 1 <==> m == 1_440;
    } else if m % 60 == 0 {
      assert m / 60 == 1 <==> m == 60;
    } else {
      assert m % 1_440 != 0;
    }
  }

  lemma ScheduleLineSays(s: ScheduleRow)
    ensures IsScheduleLine(ScheduleLine(s), s)
  {
    var next := if s.nextRunAt == None || s.nextRunAt == Some("") then "" else ", next " + s.nextRunAt.value;
    var last := if s.lastRunStatus == None || s.lastRunStatus == Some("") then "" else ", last " + s.lastRunStatus.value;
    assert IsPart(next, "next", s.nextRunAt) && IsPart(last, "last", s.lastRunStatus);
  }

  lemma SectionSays(s: Section, name: string, rows: nat, max: nat, most: string)
    requires s.header == Header(name, rows, max) && most == Decimal(max) && |s.lines| + s.hidden == rows
    ensures IsSectionText(SectionLines(s), name, rows, most, s.lines)
  {
  }

  lemma OneSection(sections: seq<Section>, first: seq<string>, rest: seq<Section>)
    requires sections != [] && first == SectionLines(sections[0]) && rest == sections[1..]
    ensures BodyLines(sections) == first + BodyLines(rest)
  {
  }

  lemma FourParts(a: seq<string>, b: seq<string>, c: seq<string>, d: seq<string>)
    ensures a + (b + (c + (d + []))) == a + b + c + d
  {
  }

  lemma FourSections(sections: seq<Section>)
    requires |sections| == 4
    ensures BodyLines(sections)
         == SectionLines(sections[0]) + SectionLines(sections[1]) + SectionLines(sections[2]) + SectionLines(sections[3])
  {
    var a, b := SectionLines(sections[0]), SectionLines(sections[1]);
    var c, d := SectionLines(sections[2]), SectionLines(sections[3]);
    OneSection(sections, a, sections[1..]);
    OneSection(sections[1..], b, sections[2..]);
    OneSection(sections[2..], c, sections[3..]);
    OneSection(sections[3..], d, []);
    FourParts(a, b, c, d);
  }

  lemma Maxima()
    ensures Decimal(20) == "20" && Decimal(30) == "30" && Decimal(100) == "100" && Decimal(40) == "40"
  {
    assert Decimal(1) == "1" && Decimal(10) == Decimal(1) + [Digit(0)];
    assert Decimal(100) == Decimal(10) + [Digit(0)];
    assert Decimal(2) == "2" && Decimal(3) == "3" && Decimal(4) == "4";
  }

  /**
   * The digest of some rows, to the letter: three lines about the workspace, then
   * schedules, tools, artifacts and memories. Each section shows its first rows in
   * their order and says how many there are and how many are not shown.
   */
  lemma DigestReads(r: Rows, v: View)
    returns (schedules: seq<string>, tools: seq<string>, artifacts: seq<string>, memories: seq<string>)
    requires IsTrimmed(v, FullView(r))
    ensures Render(v) == Join(
      ["== Workspace state ==", "Goal: " + (if r.goal == "" then "(not set)" else r.goal),
       "Measurement: " + (if r.measurement == "" then "(not set)" else r.measurement)]
      + (schedules + tools + artifacts + memories), "\n")
    ensures IsSectionText(schedules, "Schedules", |r.schedules|, "20", v.sections[0].lines)
    ensures IsSectionText(tools, "Tools", |r.tools|, "30", v.sections[1].lines)
    ensures IsSectionText(artifacts, "Artifacts", |r.artifacts|, "100", v.sections[2].lines)
    ensures IsSectionText(memories, "Memories", |r.memories|, "40", v.sections[3].lines)
    ensures forall i :: 0 <= i < |v.sections[0].lines| ==> IsScheduleLine(v.sections[0].lines[i], r.schedules[i])
    ensures forall i :: 0 <= i < |v.sections[1].lines| ==> IsToolLine(v.sections[1].lines[i], r.tools[i])
    ensures forall i :: 0 <= i < |v.sections[2].lines| ==> IsArtifactLine(v.sections[2].lines[i], r.artifacts[i])
    ensures forall i :: 0 <= i < |v.sections[3].lines| ==> IsMemoryLine(v.sections[3].lines[i], r.memories[i])
  {
    ShownAndHiddenAreAll(r, v);
    Maxima();
    schedules, tools := SectionLines(v.sections[0]), SectionLines(v.sections[1]);
    artifacts, memories := SectionLines(v.sections[2]), SectionLines(v.sections[3]);
    FourSections(v.sections);
    HeadersAre(r, v);
    SectionSays(v.sections[0], "Schedules", |r.schedules|, 20, "20");
    SectionSays(v.sections[1], "Tools", |r.tools|, 30, "30");
    SectionSays(v.sections[2], "Artifacts", |r.artifacts|, 100, "100");
    SectionSays(v.sections[3], "Memories", |r.memories|, 40, "40");
    forall i | 0 <= i < |v.sections[0].lines| ensures IsScheduleLine(v.sections[0].lines[i], r.schedules[i]) {
      ScheduleLineSays(r.schedules[i]);
    }
  }

  lemma HeadersAre(r: Rows, v: View)
    requires IsTrimmed(v, FullView(r))
    ensures v.goal == r.goal && v.measurement == r.measurement
    ensures v.sections[0].header == Header("Schedules", |r.schedules|, 20)
    ensures v.sections[1].header == Header("Tools", |r.tools|, 30)
    ensures v.sections[2].header == Header("Artifacts", |r.artifacts|, 100)
    ensures v.sections[3].header == Header("Memories", |r.memories|, 40)
  {
    var full := FullView(r);
    assert forall k :: 0 <= k < 4 ==> SectionTrimmed(v.sections[k], full.sections[k]);
  }

  /** What is dropped goes from artifacts first, then tools, memories and schedules, and six lines of each stay. */
  lemma DroppedInThisOrder(r: Rows, v: View)
    requires IsTrimmed(v, FullView(r)) && TrimmedInOrder(v, FullView(r))
    ensures |v.sections[0].lines| >= Least(|r.schedules|, 6) && |v.sections[1].lines| >= Least(|r.tools|, 6)
    ensures |v.sections[2].lines| >= Least(|r.artifacts|, 6) && |v.sections[3].lines| >= Least(|r.memories|, 6)
    ensures |v.sections[1].lines| < |r.tools| ==> |v.sections[2].lines| <= 6
    ensures |v.sections[3].lines| < |r.memories| ==> |v.sections[2].lines| <= 6 && |v.sections[1].lines| <= 6
    ensures |v.sections[0].lines| < Least(|r.schedules|, 20) ==>
      |v.sections[2].lines| <= 6 && |v.sections[1].lines| <= 6 && |v.sections[3].lines| <= 6
  {
    var full := FullView(r);
    assert forall k :: 0 <= k < 4 ==> SectionTrimmed(v.sections[k], full.sections[k]);
    assert TrimOrder(0) == 2 && TrimOrder(1) == 1 && TrimOrder(2) == 3 && TrimOrder(3) == 0;
    assert v.sections[TrimOrder(1)] != full.sections[TrimOrder(1)] ==> AtFloor(v.sections[TrimOrder(0)]);
    assert v.sections[TrimOrder(2)] != full.sections[TrimOrder(2)] ==>
      AtFloor(v.sections[TrimOrder(0)]) && AtFloor(v.sections[TrimOrder(1)]);
    assert v.sections[TrimOrder(3)] != full.sections[TrimOrder(3)] ==>
      AtFloor(v.sections[TrimOrder(0)]) && AtFloor(v.sections[TrimOrder(1)]) && AtFloor(v.sections[TrimOrder(2)]);
  }

  /** When nothing is dropped for the budget, all tools and memories are shown, twenty schedules and sixty artifacts. */
  lemma ShownWithoutABudget(r: Rows)
    ensures |FullView(r).sections[0].lines| == Least(|r.schedules|, 20) && |FullView(r).sections[1].lines| == |r.tools|
    ensures |FullView(r).sections[2].lines| == Least(|r.artifacts|, 60) && |FullView(r).sections[3].lines| == |r.memories|
  {
  }
}
