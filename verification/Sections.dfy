// Finding the three statements in a report: a machine over lines of words, page by page. A section
// begins at a statement's title and ends at the next title; its lines are kept for reading.

module Sections {
  import opened Common
  import opened Catalog
  import opened Statements
  import opened Layout

  const MAX_SECTION_PAGES := 8
  const STATEMENTS: seq<Table> := [BalanceSheet, IncomeStatement, CashFlow]

  // What the patterns make of a line's text, and of a word's.
  datatype Patterns = Patterns(
    squeeze: string -> string,
    declaredUnit: string -> Option<Unit>,
    unit: string -> Option<Unit>,
    title: string -> (Option<Table>, bool),  // which statement a line is the title of, and if side by side
    other: string -> bool,                   // the title of something else
    number: string -> bool, strong: string -> bool, numeric: string -> bool, cjk: string -> bool,
    amount: string -> real)

  datatype Code =
    | SectionTooLong | StatementNotFound | SectionEndNotFound
    | UnitNotStated | NoAmounts | BrokenAmount | TwoAmountsInOneColumn | AmountsWithoutColumns
    | ColumnsUnclear(why: ColumnProblem)

  datatype Problem = Problem(code: Code, table: Table, page: Option<int>)

  // A line of a page; at tells lines apart, as the order in which they are read.
  datatype Line = Line(page: int, at: nat, words: seq<Word>)

  datatype Section = Section(
    table: Table, start: int, sideBySide: bool, above: Option<Unit>, declared: Option<Unit>,
    unit: Option<Unit>, inHeader: bool, lines: seq<Line>)

  datatype State = State(
    sections: map<Table, Section>, problems: seq<Problem>, done: set<Table>, current: Option<Table>,
    declared: Option<Unit>, above: Option<Unit>)

  const START := State(map[], [], {}, None, None, None)

  function RawText(p: Patterns, line: Line): string {
    p.squeeze(TextOf(line.words))
  }

  function Or(a: Option<Unit>, b: Option<Unit>): Option<Unit> {
    if a.Some? then a else b
  }

  // A title found while no section is open begins its section, unless the statement has had one.
  function Begun(s: State, line: Line, title: (Option<Table>, bool)): State {
    if title.0.Some? && title.0.value !in s.done && title.0.value !in s.sections then
      s.(current := title.0,
         sections := s.sections[title.0.value := Section(title.0.value, line.page, title.1, s.above, s.declared, None,
                                                         true, [])])
    else s
  }

  // A title ends the open section: without a number so far it was a table of contents.
  function Ended(s: State): State
    requires s.current.Some? && s.current.value in s.sections
  {
    var table := s.current.value;
    if s.sections[table].inHeader then s.(sections := s.sections - {table}, current := None, above := None)
    else s.(done := s.done + {table}, current := None, above := None)
  }

  predicate HasAmount(p: Patterns, line: Line) {
    exists k :: 0 <= k < |line.words| && p.number(line.words[k].text) && p.strong(line.words[k].text)
  }

  function Extended(p: Patterns, section: Section, line: Line): Section {
    var headed :=
      if !section.inHeader then section
      else if HasAmount(p, line) then section.(inHeader := false)
      else if section.unit.None? then section.(unit := p.unit(RawText(p, line)))
      else section;
    headed.(lines := section.lines + [line])
  }

  function Read(p: Patterns, s: State, line: Line): State {
    var raw := RawText(p, line);
    var said, title := p.declaredUnit(raw), p.title(raw);
    var heard := s.(declared := Or(said, s.declared));
    if s.current.None? || s.current.value !in s.sections then
      var begun := Begun(heard, line, title);
      if begun.current.Some? then begun
      else if said.None? then heard.(above := Or(p.unit(raw), s.above))
      else heard
    else if title.0 == s.current then heard
    else if title.0.Some? || p.other(raw) then Begun(Ended(heard), line, title)
    else if line.page - s.sections[s.current.value].start >= MAX_SECTION_PAGES then
      heard.(problems := s.problems + [Problem(SectionTooLong, s.current.value, Some(line.page))], current := None)
    else heard.(sections := s.sections[s.current.value := Extended(p, s.sections[s.current.value], line)])
  }

  // Reading a page's lines from the k-th on; before is how many lines were read before the page.
  function ReadLines(p: Patterns, s: State, page: int, lines: seq<seq<Word>>, k: nat, before: nat): State
    requires k <= |lines|
    decreases |lines| - k
  {
    if k == |lines| then s else ReadLines(p, Read(p, s, Line(page, before + k, lines[k])), page, lines, k + 1, before)
  }

  function PageLines(p: Patterns, page: PageWords): seq<seq<Word>> {
    var lines := Lines(page.words);
    seq(|lines|, i requires 0 <= i < |lines| => WithNumbersJoined(p.numeric, lines[i]))
  }

  // With how many pages and lines were read; once all is done no more pages are.
  datatype Progress = Progress(state: State, pages: nat, lines: nat)

  predicate Finished(s: State) {
    |s.done| == |STATEMENTS| && s.current.None?
  }

  function ReadPage(p: Patterns, before: Progress, page: PageWords): Progress {
    var lines := PageLines(p, page);
    Progress(ReadLines(p, before.state.(above := None), page.number, lines, 0, before.lines), before.pages
             + 1, before.lines + |lines|)
  }

  // Reading the pages from the n-th on.
  function ReadPages(p: Patterns, before: Progress, pages: seq<PageWords>, n: nat): Progress
    requires n <= |pages|
    decreases |pages| - n
  {
    if n == |pages| || Finished(before.state) then before else ReadPages(p, ReadPage(p, before, pages[n]), pages, n + 1)
  }

  function ReadReport(p: Patterns, pages: seq<PageWords>): Progress {
    ReadPages(p, Progress(START, 0, 0), pages, 0)
  }

  // ---------------------------------------------------------------- what the machine keeps

  predicate LinesBelow(section: Section, n: nat) {
    && (forall i :: 0 <= i < |section.lines| ==> section.lines[i].at < n)
    && (forall i, j :: 0 <= i < j < |section.lines| ==> section.lines[i].at < section.lines[j].at)
  }

  predicate LinesApart(a: Section, b: Section) {
    forall i, j :: 0 <= i < |a.lines| && 0 <= j < |b.lines| ==> a.lines[i].at != b.lines[j].at
  }

  predicate Short(section: Section) {
    forall i :: 0 <= i < |section.lines| ==> section.lines[i].page - section.start < MAX_SECTION_PAGES
  }

  // The statements given up.
  function Failed(problems: seq<Problem>): set<Table> {
    set i | 0 <= i < |problems| :: problems[i].table
  }

  predicate SectionSound(section: Section, t: Table, n: nat) {
    section.table == t && LinesBelow(section, n) && Short(section)
  }

  ghost predicate Separate(sections: map<Table, Section>) {
    forall t, u {:trigger sections[t], sections[u]} :: t in sections && u in sections && t != u ==>
        LinesApart(sections[t], sections[u])
  }

  ghost predicate SectionsSound(sections: map<Table, Section>, n: nat) {
    && (forall t {:trigger SectionSound(sections[t], t, n)} :: t in sections ==> SectionSound(sections[t], t, n))
    && Separate(sections)
  }

  predicate Closed(s: State) {
    forall t :: t in s.done ==> t in s.sections && !s.sections[t].inHeader
  }

  ghost predicate Inv(s: State, n: nat) {
    && SectionsSound(s.sections, n) && Closed(s)
    && (s.current.Some? ==> s.current.value in s.sections.Keys - s.done - Failed(s.problems))
    && Failed(s.problems) <= s.sections.Keys - s.done
  }

  lemma BegunKeeps(s: State, n: nat, line: Line, title: (Option<Table>, bool))
    requires Inv(s, n) && s.current.None?
    ensures Inv(Begun(s, line, title), n)
  {}

  lemma EndedKeeps(s: State, n: nat)
    requires Inv(s, n) && s.current.Some?
    ensures Inv(Ended(s), n)
  {}

  lemma ExtendedSound(p: Patterns, section: Section, t: Table, n: nat, line: Line)
    requires SectionSound(section, t, n) && line.at == n && line.page - section.start < MAX_SECTION_PAGES
    ensures SectionSound(Extended(p, section, line), t, n + 1)
    ensures Extended(p, section, line).lines == section.lines + [line]
  {
  }

  lemma ExtendedApart(a: Section, b: Section, n: nat, line: Line)
    requires LinesApart(a, b) && LinesBelow(b, n) && line.at == n
    ensures LinesApart(a.(lines := a.lines + [line]), b) && LinesApart(b, a.(lines := a.lines + [line]))
  {
  }

  lemma ApartOnLines(a: Section, b: Section, c: Section)
    requires LinesApart(a, b) && c.lines == a.lines
    ensures LinesApart(c, b) && LinesApart(b, c)
  {
  }

  lemma ExtendedKeeps(p: Patterns, s: State, n: nat, line: Line)
    requires Inv(s, n) && s.current.Some? && line.at == n
             && line.page - s.sections[s.current.value].start < MAX_SECTION_PAGES
    ensures Inv(s.(sections := s.sections[s.current.value := Extended(p, s.sections[s.current.value], line)]), n + 1)
  {
    var open := s.current.value;
    var longer := Extended(p, s.sections[open], line);
    var after := s.sections[open := longer];
    assert SectionSound(s.sections[open], open, n);
    ExtendedSound(p, s.sections[open], open, n, line);
    forall t | t in after
      ensures SectionSound(after[t], t, n + 1)
    {
      assert SectionSound(s.sections[t], t, n);
    }
    forall t, u | t in after && u in after && t != u
      ensures LinesApart(after[t], after[u])
    {
      assert LinesApart(s.sections[t], s.sections[u]) && SectionSound(s.sections[t], t, n)
             && SectionSound(s.sections[u], u, n);
      var other := if t == open then u else t;
      if t == open || u == open {
        assert LinesApart(s.sections[open], s.sections[other]);
        ExtendedApart(s.sections[open], s.sections[other], n, line);
        ApartOnLines(s.sections[open].(lines := s.sections[open].lines + [line]), s.sections[other], longer);
      }
    }
  }

  lemma LaterKeeps(s: State, n: nat)
    requires Inv(s, n)
    ensures Inv(s, n + 1)
  {
    forall t | t in s.sections
      ensures SectionSound(s.sections[t], t, n + 1)
    {
      assert SectionSound(s.sections[t], t, n);
    }
  }

  lemma HeardKeeps(s: State, n: nat, declared: Option<Unit>, above: Option<Unit>)
    requires Inv(s, n)
    ensures Inv(s.(declared := declared, above := above), n)
  {
  }

  lemma GivenUpKeeps(s: State, n: nat, problem: Problem)
    requires Inv(s, n) && s.current == Some(problem.table)
    ensures Inv(s.(problems := s.problems + [problem], current := None), n)
  {}

  lemma ReadKeeps(p: Patterns, s: State, n: nat, line: Line)
    requires Inv(s, n) && line.at == n
    ensures Inv(Read(p, s, line), n + 1)
  {
    var raw := RawText(p, line);
    var said, title := p.declaredUnit(raw), p.title(raw);
    var heard := s.(declared := Or(said, s.declared));
    HeardKeeps(s, n, Or(said, s.declared), s.above);
    if s.current.None? {
      BegunKeeps(heard, n, line, title);
      LaterKeeps(Begun(heard, line, title), n);
      HeardKeeps(heard, n, heard.declared, Or(p.unit(raw), s.above));
      LaterKeeps(heard.(above := Or(p.unit(raw), s.above)), n);
    } else if title.0 == s.current {
      LaterKeeps(heard, n);
    } else if title.0.Some? || p.other(raw) {
      EndedKeeps(heard, n);
      BegunKeeps(Ended(heard), n, line, title);
      LaterKeeps(Begun(Ended(heard), line, title), n);
    } else if line.page - s.sections[s.current.value].start >= MAX_SECTION_PAGES {
      GivenUpKeeps(heard, n, Problem(SectionTooLong, s.current.value, Some(line.page)));
      LaterKeeps(heard.(problems := s.problems
                                    + [Problem(SectionTooLong, s.current.value, Some(line.page))], current := None), n);
    } else {
      ExtendedKeeps(p, heard, n, line);
    }
  }

  lemma {:induction false} ReadLinesKeep(p: Patterns, s: State, page: int, lines: seq<seq<Word>>, k: nat, before: nat)
    requires k <= |lines| && Inv(s, before + k)
    ensures Inv(ReadLines(p, s, page, lines, k, before), before + |lines|)
    decreases |lines| - k
  {
    if k < |lines| {
      ReadKeeps(p, s, before + k, Line(page, before + k, lines[k]));
      ReadLinesKeep(p, Read(p, s, Line(page, before + k, lines[k])), page, lines, k + 1, before);
    }
  }

  lemma ReadPageKeeps(p: Patterns, before: Progress, page: PageWords)
    requires Inv(before.state, before.lines)
    ensures Inv(ReadPage(p, before, page).state, ReadPage(p, before, page).lines)
  {
    var lines := PageLines(p, page);
    HeardKeeps(before.state, before.lines, before.state.declared, None);
    assert before.state.(declared := before.state.declared, above := None) == before.state.(above := None);
    ReadLinesKeep(p, before.state.(above := None), page.number, lines, 0, before.lines);
  }

  lemma {:induction false} ReadPagesKeep(p: Patterns, before: Progress, pages: seq<PageWords>, n: nat)
    requires n <= |pages| && Inv(before.state, before.lines)
    ensures var after := ReadPages(p, before, pages, n); Inv(after.state, after.lines)
    decreases |pages| - n
  {
    hide Inv, ReadPage;
    if n < |pages| && !Finished(before.state) {
      ReadPageKeeps(p, before, pages[n]);
      ReadPagesKeep(p, ReadPage(p, before, pages[n]), pages, n + 1);
    }
  }

  lemma ReadReportKeeps(p: Patterns, pages: seq<PageWords>)
    ensures Inv(ReadReport(p, pages).state, ReadReport(p, pages).lines)
  {
    ReadPagesKeep(p, Progress(START, 0, 0), pages, 0);
  }

  // Whatever the pages, each line is in at most one section, once; a section spans fewer than eight
  // pages; and a statement is done only if a number was found in it.
  lemma EachLineInOneSection(p: Patterns, pages: seq<PageWords>, t: Table, u: Table, i: nat, j: nat)
    requires var s := ReadReport(p, pages).state;
             t in s.sections && u in s.sections && i < |s.sections[t].lines| && j < |s.sections[u].lines|
    requires var s := ReadReport(p, pages).state; s.sections[t].lines[i].at == s.sections[u].lines[j].at
    ensures t == u && i == j
    ensures var s := ReadReport(p, pages).state; s.sections[t].lines[i].page - s.sections[t].start < MAX_SECTION_PAGES
    ensures var s := ReadReport(p, pages).state; t in s.done ==> !s.sections[t].inHeader
  {
    var s := ReadReport(p, pages).state;
    ReadReportKeeps(p, pages);
    assert SectionSound(s.sections[t], t, ReadReport(p, pages).lines);
    assert t == u || LinesApart(s.sections[t], s.sections[u]);
  }
}
