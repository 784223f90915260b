// What is in a section: which lines begin and end it, that no title is among its lines, and that its unit
// is the first one printed before its first amount.

module SectionContents {
  import opened Common
  import opened Catalog
  import opened Statements
  import opened Layout
  import opened Sections

  // ---------------------------------------------------------------- one line

  predicate Open(s: State) {
    s.current.Some? && s.current.value in s.sections
  }

  // While no section is open: the title of a statement that has had no section begins one, at this page,
  // with the unit last seen above it; any other line only says which unit holds.
  lemma OutsideSteps(p: Patterns, s: State, line: Line)
    requires s.current == None
    ensures var after := Read(p, s, line); var raw := p.squeeze(TextOf(line.words)); var (title, side) := p.title(raw);
            && after.declared == (if p.declaredUnit(raw) != None then p.declaredUnit(raw) else s.declared)
            && after.problems == s.problems && after.done == s.done
            && (title != None && title.value !in s.done && title.value !in s.sections ==>
                  && after.current == title && after.above == s.above
                  && after.sections == s.sections[title.value := Section(title.value, line.page, side, s.above,
                                                                         after.declared, None, true, [])])
            && (title == None || title.value in s.done || title.value in s.sections ==>
                  && after.current == None && after.sections == s.sections
                  && after.above == if p.declaredUnit(raw) == None && p.unit(raw) != None then p.unit(raw) else s.above)
  {
  }

  // While one is open: its own title again is skipped; another title ends it, and drops it if no amount
  // was seen, before it may begin a section itself; after eight pages it is given up; any other line is
  // one of its lines.
  lemma InsideSteps(p: Patterns, s: State, line: Line)
    requires Open(s)
    ensures var after := Read(p, s, line); var raw := p.squeeze(TextOf(line.words));
            var (title, _) := p.title(raw); var t := s.current.value; var section := s.sections[t];
            && (title == s.current ==>
                  after == s.(declared := if p.declaredUnit(raw) != None then p.declaredUnit(raw) else s.declared))
            && (title != s.current && (title != None || p.other(raw)) ==>
                  && after.current != s.current && after.problems == s.problems
                  && (section.inHeader ==> after.done == s.done && t !in after.sections)
                  && (!section.inHeader ==> after.done == s.done + {t} && t in after.sections
                                            && after.sections[t] == section)
                  && (after.current == if title != None && title.value !in after.done && title.value !in s.sections
                                       then title else None))
            && (title == None && !p.other(raw) && line.page >= section.start + 8 ==>
                  && after.current == None && after.sections == s.sections && after.done == s.done
                  && after.problems == s.problems + [Problem(SectionTooLong, t, Some(line.page))])
            && (title == None && !p.other(raw) && line.page < section.start + 8 ==>
                  && after.current == s.current && after.done == s.done && after.problems == s.problems
                  && after.sections == s.sections[t := after.sections[t]]
                  && after.sections[t].lines == section.lines + [line])
  {
  }

  // ---------------------------------------------------------------- the lines of a section

  predicate IsTitle(p: Patterns, line: Line) {
    p.title(p.squeeze(TextOf(line.words))).0 != None || p.other(p.squeeze(TextOf(line.words)))
  }

  predicate HasFigure(p: Patterns, line: Line) {
    exists w :: w in line.words && p.number(w.text) && p.strong(w.text)
  }

  // A line before the first one with an amount.
  predicate InHeader(p: Patterns, lines: seq<Line>, k: int) {
    0 <= k < |lines| && forall j :: 0 <= j <= k ==> !HasFigure(p, lines[j])
  }

  function Says(p: Patterns, line: Line): Option<Unit> {
    p.unit(p.squeeze(TextOf(line.words)))
  }

  ghost predicate FirstUnit(p: Patterns, lines: seq<Line>, unit: Option<Unit>) {
    && (unit == None ==> forall k :: InHeader(p, lines, k) ==> Says(p, lines[k]) == None)
    && (unit != None ==> exists k :: InHeader(p, lines, k) && Says(p, lines[k]) == unit
                                     && forall j :: 0 <= j < k ==> Says(p, lines[j]) == None)
  }

  ghost predicate Proper(p: Patterns, section: Section) {
    && (forall k :: 0 <= k < |section.lines| ==> !IsTitle(p, section.lines[k]))
    && (section.inHeader <==> forall k :: 0 <= k < |section.lines| ==> !HasFigure(p, section.lines[k]))
    && FirstUnit(p, section.lines, section.unit)
  }

  ghost predicate AllProper(p: Patterns, s: State) {
    forall t :: t in s.sections ==> Proper(p, s.sections[t])
  }

  lemma HasAmountMeans(p: Patterns, line: Line)
    ensures HasAmount(p, line) <==> HasFigure(p, line)
  {
    if HasAmount(p, line) {
      var k :| 0 <= k < |line.words| && p.number(line.words[k].text) && p.strong(line.words[k].text);
      assert line.words[k] in line.words;
    }
  }

  lemma EmptyIsProper(p: Patterns, section: Section)
    requires section.lines == [] && section.inHeader && section.unit == None
    ensures Proper(p, section)
  {
  }

  lemma ExtendedIsProper(p: Patterns, section: Section, line: Line)
    requires Proper(p, section) && !IsTitle(p, line)
    ensures Proper(p, Extended(p, section, line))
  {
    hide FirstUnit;
    var after := Extended(p, section, line);
    HasAmountMeans(p, line);
    assert after.lines == section.lines + [line];
    assert forall k :: 0 <= k < |section.lines| ==> after.lines[k] == section.lines[k];
    assert after.lines[|section.lines|] == line;
    UnitExtended(p, section.lines, section.unit, line);
  }

  // One more line: a unit that was found stays, and one not yet found may be found in it, in the header.
  lemma UnitExtended(p: Patterns, lines: seq<Line>, unit: Option<Unit>, line: Line)
    requires FirstUnit(p, lines, unit)
    ensures var heading := !HasFigure(p, line) && forall k :: 0 <= k < |lines| ==> !HasFigure(p, lines[k]);
            FirstUnit(p, lines + [line], if heading && unit == None then Says(p, line) else unit)
  {
    hide Says, HasFigure;
    var more, n := lines + [line], |lines|;
    HeaderExtended(p, lines, line);
    assert more[n] == line && forall k :: 0 <= k < n ==> more[k] == lines[k];
    if unit != None {
      var k :| InHeader(p, lines, k) && Says(p, lines[k]) == unit
      && forall j :: 0 <= j < k ==>
         Says(p, lines[j]) == None;
      assert InHeader(p, more, k);
    } else if InHeader(p, more, n) {
      forall j | 0 <= j < n
        ensures Says(p, more[j]) == None
      {
        assert InHeader(p, lines, j);
      }
    } else {
      forall k | InHeader(p, more, k)
        ensures Says(p, more[k]) == None
      {
        assert InHeader(p, lines, k);
      }
    }
  }

  lemma HeaderExtended(p: Patterns, lines: seq<Line>, line: Line)
    ensures forall k :: 0 <= k < |lines| ==> (InHeader(p, lines + [line], k) <==> InHeader(p, lines, k))
    ensures InHeader(p, lines + [line], |lines|) <==>
            !HasFigure(p, line) && forall k :: 0 <= k < |lines| ==> !HasFigure(p, lines[k])
  {
    var more := lines + [line];
    assert forall k :: 0 <= k < |lines| ==> more[k] == lines[k];
    assert more[|lines|] == line;
  }

  lemma ReadIsProper(p: Patterns, s: State, line: Line)
    requires AllProper(p, s)
    ensures AllProper(p, Read(p, s, line))
  {
    hide Proper, Extended;
    var raw := RawText(p, line);
    var after := Read(p, s, line);
    forall t | t in after.sections
      ensures Proper(p, after.sections[t])
    {
      if t !in s.sections || after.sections[t] != s.sections[t] {
        if Open(s) && t == s.current.value && t in s.sections && after.sections[t] == Extended(p, s.sections[t], line) {
          ExtendedIsProper(p, s.sections[t], line);
        } else {
          EmptyIsProper(p, after.sections[t]);
        }
      }
    }
  }

  lemma {:induction false} LinesAreProper(p: Patterns, s: State, page: int, lines: seq<seq<Word>>, k: nat, before: nat)
    requires k <= |lines| && AllProper(p, s)
    ensures AllProper(p, ReadLines(p, s, page, lines, k, before))
    decreases |lines| - k
  {
    if k < |lines| {
      ReadIsProper(p, s, Line(page, before + k, lines[k]));
      LinesAreProper(p, Read(p, s, Line(page, before + k, lines[k])), page, lines, k + 1, before);
    }
  }

  lemma {:induction false} PagesAreProper(p: Patterns, before: Progress, pages: seq<PageWords>, n: nat)
    requires n <= |pages| && AllProper(p, before.state)
    ensures AllProper(p, ReadPages(p, before, pages, n).state)
    decreases |pages| - n
  {
    hide Proper, ReadLines, Finished;
    if n < |pages| && !Finished(before.state) {
      LinesAreProper(p, before.state.(above := None), pages[n].number, PageLines(p, pages[n]), 0, before.lines);
      PagesAreProper(p, ReadPage(p, before, pages[n]), pages, n + 1);
    }
  }

  // Whatever the pages: no title is among a section's lines; the unit printed in it is the first one
  // before its first amount; and a statement is closed only if it has an amount.
  lemma SectionsAreProper(p: Patterns, pages: seq<PageWords>, t: Table)
    requires t in ReadReport(p, pages).state.sections
    ensures var s := ReadReport(p, pages).state; var section := s.sections[t];
            && (forall k :: 0 <= k < |section.lines| ==> !IsTitle(p, section.lines[k]))
            && FirstUnit(p, section.lines, section.unit)
            && (t in s.done ==> exists k :: 0 <= k < |section.lines| && HasFigure(p, section.lines[k]))
  {
    PagesAreProper(p, Progress(START, 0, 0), pages, 0);
    ReadReportKeeps(p, pages);
  }
}
