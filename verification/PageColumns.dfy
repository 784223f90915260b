// Which columns hold on which page of a section: its own if it has amounts enough to tell, else those of
// a page right beside it, and from which amounts they are found.

module PageColumns {
  import opened Common
  import opened Catalog
  import opened Statements
  import opened Layout
  import opened Sections
  import opened Extract

  // ---------------------------------------------------------------- the amounts of a page

  lemma {:induction false} LineEdges(p: Patterns, words: seq<Word>, x: real)
    ensures x in AmountEdges(p, words) <==>
            exists w :: w in words && p.number(w.text) && p.strong(w.text) && w.x1 == x
  {
    if words != [] {
      var rest, last := words[..|words| - 1], words[|words| - 1];
      LineEdges(p, rest, x);
      assert words == rest + [last];
    }
  }

  // The right edges on a page are those of the amounts, in plain view, on its lines.
  lemma {:induction false} PageEdges(p: Patterns, lines: seq<Line>, page: int, x: real)
    ensures x in EdgesOn(p, lines, page) <==>
            exists line, w :: line in lines && line.page == page && w in line.words
                              && p.number(w.text) && p.strong(w.text) && w.x1 == x
  {
    if lines != [] {
      var rest, last := lines[..|lines| - 1], lines[|lines| - 1];
      PageEdges(p, rest, page, x);
      LineEdges(p, last.words, x);
      assert lines == rest + [last];
    }
  }

  // As many as there are amounts: none is counted twice or left out.
  lemma {:induction false} EdgesAdd(p: Patterns, a: seq<Line>, b: seq<Line>, page: int)
    ensures EdgesOn(p, a + b, page) == EdgesOn(p, a, page) + EdgesOn(p, b, page)
  {
    if b == [] {
      assert a + b == a;
    } else {
      assert (a + b)[..|a + b| - 1] == a + b[..|b| - 1];
      EdgesAdd(p, a, b[..|b| - 1], page);
    }
  }

  // ---------------------------------------------------------------- own columns

  predicate Readable(p: Patterns, section: Section, page: int) {
    |EdgesOn(p, section.lines, page)| >= 4
  }

  predicate Distinct(pages: seq<int>) {
    forall i, j :: 0 <= i < j < |pages| ==> pages[i] != pages[j]
  }

  // What is located before any borrowing: the columns of the readable pages, and the other pages.
  lemma {:induction false} LocatedMeans(p: Patterns, section: Section, pages: seq<int>)
    requires Distinct(pages)
    ensures var per := Located(p, section, pages);
            && (forall page :: page in per.cols <==>
                  page in pages && Readable(p, section, page)
                  && Columns(EdgesOn(p, section.lines, page), section.sideBySide).Ok?)
            && (forall page :: page in per.cols ==>
                  Columns(EdgesOn(p, section.lines, page), section.sideBySide) == Ok(per.cols[page]))
            && (forall page :: page in per.sparse <==> page in pages && !Readable(p, section, page))
            && (forall page :: page in per.order <==> page in per.cols) && Distinct(per.sparse)
            && (per.problems == [] <==> forall page :: page in pages && Readable(p, section, page) ==>
                  Columns(EdgesOn(p, section.lines, page), section.sideBySide).Ok?)
  {
    hide Columns, EdgesOn;
    if pages != [] {
      var rest, last := pages[..|pages| - 1], pages[|pages| - 1];
      assert pages == rest + [last];
      LocatedMeans(p, section, rest);
    }
  }

  lemma {:induction false} PagesAscend(lines: seq<Line>)
    ensures Ascending(PagesOf(lines))
    ensures forall page :: page in PagesOf(lines) <==> exists line :: line in lines && line.page == page
  {
    if lines != [] {
      var rest, last := lines[..|lines| - 1], lines[|lines| - 1];
      PagesAscend(rest);
      WithBandAscends(PagesOf(rest), last.page);
      assert lines == rest + [last];
    }
  }

  // ---------------------------------------------------------------- borrowed columns

  predicate Beside(cols: map<int, (real, real)>, page: int) {
    page - 1 in cols || page + 1 in cols
  }

  predicate TakenFromBeside(cols: map<int, (real, real)>, page: int) {
    page in cols && ((page - 1 in cols && cols[page - 1] == cols[page])
                     || (page + 1 in cols && cols[page + 1] == cols[page]))
  }

  // Borrowing keeps what was located, gives a sparse page the columns of a page right beside it, and
  // leaves out none that has such a page.
  lemma {:induction false} BorrowingMeans(per: PerPage, n: nat)
    requires n <= |per.sparse| && Distinct(per.sparse)
    requires forall page :: page in per.order <==> page in per.cols
    requires forall page :: page in per.sparse ==> page !in per.cols
    ensures var after := Borrowing(per, n);
            && (forall page :: page in after.order <==> page in after.cols)
            && (forall page :: page in per.cols ==> page in after.cols && after.cols[page] == per.cols[page])
            && (forall page :: page in after.cols && page !in per.cols ==>
                  page in per.sparse[..n] && TakenFromBeside(after.cols, page))
            && (forall page :: page in per.sparse[..n] && Beside(per.cols, page) ==> page in after.cols)
  {
    hide TakenFromBeside, Nearest, Distance;
    if n > 0 {
      BorrowingMeans(per, n - 1);
      var before, after, page := Borrowing(per, n - 1), Borrowing(per, n), per.sparse[n - 1];
      assert per.sparse[..n] == per.sparse[..n - 1] + [page];
      assert page !in per.sparse[..n - 1];
      if before.order != [] {
        var nearest := before.order[Nearest(before.order, page)];
        assert nearest in before.order;
        if Beside(per.cols, page) {
          var beside := if page - 1 in per.cols then page - 1 else page + 1;
          var k :| 0 <= k < |before.order| && before.order[k] == beside;
          NearestBeside(before.order, page, k);
        }
        if Distance(nearest, page) == 1 {
          BorrowedOne(before.cols, page, nearest);
        }
      }
    }
  }

  lemma NearestBeside(order: seq<int>, page: int, k: nat)
    requires k < |order| && (order[k] == page - 1 || order[k] == page + 1) && page !in order
    ensures Distance(order[Nearest(order, page)], page) == 1
  {
    assert Distance(order[Nearest(order, page)], page) <= Distance(order[k], page);
    assert order[Nearest(order, page)] in order;
  }

  lemma BorrowedOne(cols: map<int, (real, real)>, page: int, nearest: int)
    requires page !in cols && nearest in cols && Distance(nearest, page) == 1
    ensures var after := cols[page := cols[nearest]];
            && TakenFromBeside(after, page)
            && forall other :: TakenFromBeside(cols, other) ==> TakenFromBeside(after, other)
  {
  }

  // The columns of a section that is read: every page of it with at least four amounts has its own, and
  // any other only those of a page right beside it, which it gets whenever such a page has its own.
  lemma ColumnsMean(p: Patterns, section: Section, page: int)
    requires ColumnsByPage(p, section).problems == []
    ensures var cols := ColumnsByPage(p, section).cols;
            && (page in cols ==> exists line :: line in section.lines && line.page == page)
            && (Readable(p, section, page) ==>
                  page in cols && Columns(EdgesOn(p, section.lines, page), section.sideBySide) == Ok(cols[page]))
            && (page in cols && !Readable(p, section, page) ==> TakenFromBeside(cols, page))
            && ((exists line :: line in section.lines && line.page == page) ==>
                  (Readable(p, section, page - 1) || Readable(p, section, page + 1) ==> page in cols))
  {
    hide Columns, EdgesOn;
    var located := Located(p, section, PagesOf(section.lines));
    PagesAscend(section.lines);
    LocatedMeans(p, section, PagesOf(section.lines));
    BorrowingMeans(located, |located.sparse|);
    assert located.sparse[..|located.sparse|] == located.sparse;
    forall q | Readable(p, section, q)
      ensures q in PagesOf(section.lines)
    {
      AmountsHavePage(p, section.lines, q);
    }
  }

  lemma AmountsHavePage(p: Patterns, lines: seq<Line>, page: int)
    requires EdgesOn(p, lines, page) != []
    ensures exists line :: line in lines && line.page == page
  {
    PageEdges(p, lines, page, EdgesOn(p, lines, page)[0]);
  }

  // The unit printed in the section comes first, then one above its title, then one declared elsewhere.
  lemma UnitMeans(p: Patterns, section: Section)
    requires Build(p, section).Ok?
    ensures var s := Build(p, section).value;
            && s.table == section.table && s.startPage == section.start && s.sideBySide == section.sideBySide
            && (section.unit != None ==> s.unitSource == OnStatement && section.unit == Some(s.unit))
            && (section.unit == None && section.above != None ==>
                  s.unitSource == AboveTitle && section.above == Some(s.unit))
            && (section.unit == None && section.above == None ==>
                  s.unitSource == DeclaredElsewhere && section.declared == Some(s.unit))
  {
  }
}
