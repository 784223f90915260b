// From the sections to the statements: where the columns are on each page, one row per line, and for
// every statement either its rows or the reasons why there are none.

module Extract {
  import opened Common
  import opened Catalog
  import opened Statements
  import opened Layout
  import opened Sections

  const MIN_AMOUNTS_PER_PAGE := 4
  const COLUMN_TOLERANCE := 12.0

  datatype Extraction = Extraction(statements: map<Table, ExtractedStatement>, problems: seq<Problem>, pagesRead: nat)

  // ---------------------------------------------------------------- columns, page by page

  predicate Amount(p: Patterns, w: Word) {
    p.number(w.text) && p.strong(w.text)
  }

  function AmountEdges(p: Patterns, words: seq<Word>): seq<real> {
    if words == [] then []
    else AmountEdges(p, words[..|words| - 1]) + if Amount(p, words[|words| - 1]) then [words[|words| - 1].x1] else []
  }

  function EdgesOn(p: Patterns, lines: seq<Line>, page: int): seq<real> {
    if lines == [] then []
    else EdgesOn(p, lines[..|lines| - 1], page) + if lines[|lines| - 1].page == page
                                                  then AmountEdges(p, lines[|lines| - 1].words) else []
  }

  function PagesOf(lines: seq<Line>): seq<int> {
    if lines == [] then [] else WithBand(PagesOf(lines[..|lines| - 1]), lines[|lines| - 1].page)
  }

  // Found so far: the columns of a page, with the pages in the order they were added.
  datatype PerPage = PerPage(cols: map<int, (real, real)>, order: seq<int>, sparse: seq<int>, problems: seq<Problem>)

  function Added(per: PerPage, page: int, cols: (real, real)): PerPage {
    per.(cols := per.cols[page := cols], order := if page in per.cols then per.order else per.order + [page])
  }

  function Located(p: Patterns, section: Section, pages: seq<int>): PerPage {
    if pages == [] then PerPage(map[], [], [], [])
    else
      var before, page := Located(p, section, pages[..|pages| - 1]), pages[|pages| - 1];
      var edges := EdgesOn(p, section.lines, page);
      if |edges| < MIN_AMOUNTS_PER_PAGE then before.(sparse := before.sparse + [page])
      else
        match Columns(edges, section.sideBySide)
        case Err(why) => before.(problems := before.problems
                                             + [Problem(ColumnsUnclear(why), section.table, Some(page))])
        case Ok(cols) => Added(before, page, cols)
  }

  function Distance(a: int, b: int): nat {
    if a < b then b - a else a - b
  }

  // The first of the nearest pages.
  function Nearest(order: seq<int>, page: int): (i: nat)
    requires order != []
    ensures i < |order| && forall k :: 0 <= k < |order| ==> Distance(order[i], page) <= Distance(order[k], page)
  {
    if |order| == 1 then 0
    else
      var before := Nearest(order[..|order| - 1], page);
      if Distance(order[|order| - 1], page) < Distance(order[before], page) then |order| - 1 else before
  }

  // A page with too few amounts borrows the columns of a page right beside it.
  function Borrowing(per: PerPage, n: nat): PerPage
    requires n <= |per.sparse|
    ensures Borrowing(per, n).sparse == per.sparse && Borrowing(per, n).problems == per.problems
  {
    if n == 0 then per
    else
      var before, page := Borrowing(per, n - 1), per.sparse[n - 1];
      if before.order == [] then before
      else
        var nearest := before.order[Nearest(before.order, page)];
        if Distance(nearest, page) == 1 && nearest in before.cols then Added(before, page, before.cols[nearest])
        else before
  }

  function ColumnsByPage(p: Patterns, section: Section): PerPage {
    var located := Located(p, section, PagesOf(section.lines));
    Borrowing(located, |located.sparse|)
  }

  method FindEdges(p: Patterns, lines: seq<Line>, page: int) returns (edges: seq<real>)
    ensures edges == EdgesOn(p, lines, page)
  {
    edges := [];
    for n := 0 to |lines|
      invariant edges == EdgesOn(p, lines[..n], page)
    {
      assert lines[..n + 1][..n] == lines[..n];
      if lines[n].page == page {
        edges := edges + AmountEdges(p, lines[n].words);
      }
    }
    assert lines[..|lines|] == lines;
  }

  method FindColumnsByPage(p: Patterns, section: Section) returns (per: PerPage)
    ensures per == ColumnsByPage(p, section)
  {
    var pages := PagesOf(section.lines);
    per := PerPage(map[], [], [], []);
    for n := 0 to |pages|
      invariant per == Located(p, section, pages[..n])
    {
      assert pages[..n + 1][..n] == pages[..n];
      var edges := FindEdges(p, section.lines, pages[n]);
      if |edges| < MIN_AMOUNTS_PER_PAGE {
        per := per.(sparse := per.sparse + [pages[n]]);
        continue;
      }
      var found := FindColumns(edges, section.sideBySide);
      if found.Err? {
        per := per.(problems := per.problems + [Problem(ColumnsUnclear(found.error), section.table, Some(pages[n]))]);
        continue;
      }
      per := Added(per, pages[n], found.value);
    }
    assert pages[..|pages|] == pages;
    ghost var located := per;
    for n := 0 to |per.sparse|
      invariant per == Borrowing(located, n)
    {
      if per.order != [] {
        var nearest := per.order[Nearest(per.order, per.sparse[n])];
        if Distance(nearest, per.sparse[n]) == 1 && nearest in per.cols {
          per := Added(per, per.sparse[n], per.cols[nearest]);
        }
      }
    }
  }

  // ---------------------------------------------------------------- one line, one row

  predicate At(w: Word, edge: real) {
    Abs(w.x1 - edge) <= COLUMN_TOLERANCE
  }

  function AmountsAt(p: Patterns, words: seq<Word>, edge: real): seq<Word> {
    if words == [] then []
    else
      var w := words[|words| - 1];
      AmountsAt(p, words[..|words| - 1], edge) + if p.number(w.text) && !p.cjk(w.text) && At(w, edge) then [w] else []
  }

  // A word in a column that looks like an amount and is none.
  predicate Broken(p: Patterns, cols: (real, real), w: Word) {
    p.numeric(w.text) && p.strong(w.text) && !p.number(w.text) && (At(w, cols.0) || At(w, cols.1))
  }

  function Labels(p: Patterns, words: seq<Word>): seq<Word> {
    if words == [] then []
    else Labels(p, words[..|words| - 1]) + if p.cjk(words[|words| - 1].text) then [words[|words| - 1]] else []
  }

  predicate StrayAmount(p: Patterns, words: seq<Word>) {
    exists k :: 0 <= k < |words| && p.number(words[k].text) && !p.cjk(words[k].text) && p.strong(words[k].text)
  }

  function ReadAmount(p: Patterns, found: seq<Word>): Option<real> {
    if found == [] then None else Some(p.amount(found[0].text))
  }

  function RowOf(p: Patterns, cols: Option<(real, real)>, table: Table,
      line: Line): Result<Option<ExtractedRow>, Problem> {
    var current := if cols.Some? then AmountsAt(p, line.words, cols.value.0) else [];
    var prior := if cols.Some? then AmountsAt(p, line.words, cols.value.1) else [];
    if cols.Some? && exists k :: 0 <= k < |line.words| && Broken(p, cols.value, line.words[k])
    then Err(Problem(BrokenAmount, table, Some(line.page)))
    else if |current| > 1 || |prior| > 1 then Err(Problem(TwoAmountsInOneColumn, table, Some(line.page)))
    else if cols.None? && StrayAmount(p, line.words) then Err(Problem(AmountsWithoutColumns, table, Some(line.page)))
    else if TextOf(Labels(p, line.words)) == "" && current == [] && prior == [] then Ok(None)
    else Ok(Some(ExtractedRow(line.page, p.squeeze(TextOf(Labels(p, line.words))), ReadAmount(p, current),
                              ReadAmount(p, prior))))
  }

  function ColsOn(cols: map<int, (real, real)>, page: int): Option<(real, real)> {
    if page in cols then Some(cols[page]) else None
  }

  function RowsOf(p: Patterns, cols: map<int, (real, real)>, table: Table, lines: seq<Line>,
      n: nat): Result<seq<ExtractedRow>, Problem>
    requires n <= |lines|
  {
    if n == 0 then Ok([])
    else
      var before := RowsOf(p, cols, table, lines, n - 1);
      if before.Err? then before
      else
        match RowOf(p, ColsOn(cols, lines[n - 1].page), table, lines[n - 1])
        case Err(problem) => Err(problem)
        case Ok(None) => before
        case Ok(Some(row)) => Ok(before.value + [row])
  }

  function UnitOf(section: Section): Option<(Unit, UnitSource)> {
    if section.unit.Some? then Some((section.unit.value, OnStatement))
    else if section.above.Some? then Some((section.above.value, AboveTitle))
    else if section.declared.Some? then Some((section.declared.value, DeclaredElsewhere))
    else None
  }

  function Build(p: Patterns, section: Section): Result<ExtractedStatement, seq<Problem>> {
    var unit, per := UnitOf(section), ColumnsByPage(p, section);
    if unit.None? then Err([Problem(UnitNotStated, section.table, Some(section.start))])
    else if per.problems != [] then Err(per.problems)
    else if per.cols == map[] then Err([Problem(NoAmounts, section.table, Some(section.start))])
    else
      match RowsOf(p, per.cols, section.table, section.lines, |section.lines|)
      case Err(problem) => Err([problem])
      case Ok(rows) => Ok(ExtractedStatement(section.table, section.start, unit.value.0, unit.value.1,
                                             section.sideBySide, rows, per.cols))
  }

  lemma {:induction false} FirstProblemStays(p: Patterns, cols: map<int, (real, real)>, table: Table,
      lines: seq<Line>, k: nat, n: nat)
    requires k <= n <= |lines| && RowsOf(p, cols, table, lines, k).Err?
    ensures RowsOf(p, cols, table, lines, n) == RowsOf(p, cols, table, lines, k)
  {
    if k < n {
      FirstProblemStays(p, cols, table, lines, k, n - 1);
    }
  }

  method BuildStatement(p: Patterns, section: Section) returns (r: Result<ExtractedStatement, seq<Problem>>)
    ensures r == Build(p, section)
  {
    hide ColumnsByPage, RowOf;
    var unit, source := section.unit, OnStatement;
    if unit.None? {
      unit, source := section.above, AboveTitle;
    }
    if unit.None? {
      unit, source := section.declared, DeclaredElsewhere;
    }
    if unit.None? {
      return Err([Problem(UnitNotStated, section.table, Some(section.start))]);
    }
    var per := FindColumnsByPage(p, section);
    if per.problems != [] {
      return Err(per.problems);
    }
    if per.cols == map[] {
      return Err([Problem(NoAmounts, section.table, Some(section.start))]);
    }
    var rows: seq<ExtractedRow> := [];
    for n := 0 to |section.lines|
      invariant RowsOf(p, per.cols, section.table, section.lines, n) == Ok(rows)
    {
      var row := RowOf(p, ColsOn(per.cols, section.lines[n].page), section.table, section.lines[n]);
      if row.Err? {
        FirstProblemStays(p, per.cols, section.table, section.lines, n + 1, |section.lines|);
        return Err([row.error]);
      }
      if row.value.Some? {
        rows := rows + [row.value.value];
      }
    }
    r := Ok(ExtractedStatement(section.table, section.start, unit.value, source, section.sideBySide, rows, per.cols));
  }

  // ---------------------------------------------------------------- the report

  // What becomes of one statement: its rows, or the problems to report beside those already known.
  function Verdict(p: Patterns, s: State, table: Table): Result<ExtractedStatement, seq<Problem>> {
    if table !in s.sections then Err([Problem(StatementNotFound, table, None)])
    else if table in Failed(s.problems) then Err([])
    else if table !in s.done then Err([Problem(SectionEndNotFound, table, None)])
    else Build(p, s.sections[table])
  }

  function Reported(p: Patterns, s: State, pagesRead: nat, n: nat): Extraction
    requires n <= |STATEMENTS|
  {
    if n == 0 then Extraction(map[], s.problems, pagesRead)
    else
      var before := Reported(p, s, pagesRead, n - 1);
      match Verdict(p, s, STATEMENTS[n - 1])
      case Ok(statement) => before.(statements := before.statements[STATEMENTS[n - 1] := statement])
      case Err(problems) => before.(problems := before.problems + problems)
  }

  function Extracted(p: Patterns, pages: seq<PageWords>): Extraction {
    var read := ReadReport(p, pages);
    Reported(p, read.state, read.pages, |STATEMENTS|)
  }

  method JoinLines(p: Patterns, page: PageWords) returns (lines: seq<seq<Word>>)
    ensures lines == PageLines(p, page)
  {
    var found := LinesOf(page.words);
    lines := [];
    for i := 0 to |found|
      invariant |lines| == i && forall k :: 0 <= k < i ==> lines[k] == WithNumbersJoined(p.numeric, found[k])
    {
      var joined := JoinSplitNumbers(p.numeric, found[i]);
      lines := lines + [joined];
    }
  }

  // One line, as the loop over a page handles it.
  method ReadLine(p: Patterns, s: State, line: Line) returns (after: State)
    ensures after == Read(p, s, line)
  {
    var raw := RawText(p, line);
    var said := p.declaredUnit(raw);
    after := s.(declared := Or(said, s.declared));
    var title := p.title(raw);
    if s.current.None? || s.current.value !in s.sections {
      var begun := Begun(after, line, title);
      if begun.current.None? && said.None? {
        after := after.(above := Or(p.unit(raw), after.above));
      } else {
        after := begun;
      }
      return;
    }
    if title.0 == s.current {
      return;
    }
    if title.0.Some? || p.other(raw) {
      after := Begun(Ended(after), line, title);
      return;
    }
    var section := s.sections[s.current.value];
    if line.page - section.start >= MAX_SECTION_PAGES {
      after := after.(problems := after.problems
                                  + [Problem(SectionTooLong, s.current.value, Some(line.page))], current := None);
      return;
    }
    if section.inHeader {
      if HasAmount(p, line) {
        section := section.(inHeader := false);
      } else if section.unit.None? {
        section := section.(unit := p.unit(raw));
      }
    }
    section := section.(lines := section.lines + [line]);
    after := after.(sections := after.sections[s.current.value := section]);
  }

  method ReadAll(p: Patterns, s: State, page: int, lines: seq<seq<Word>>, before: nat) returns (after: State)
    ensures after == ReadLines(p, s, page, lines, 0, before)
  {
    after := s;
    for k := 0 to |lines|
      invariant ReadLines(p, after, page, lines, k, before) == ReadLines(p, s, page, lines, 0, before)
    {
      after := ReadLine(p, after, Line(page, before + k, lines[k]));
    }
  }

  method ReadOnePage(p: Patterns, before: Progress, page: PageWords) returns (after: Progress)
    ensures after == ReadPage(p, before, page)
  {
    var lines := JoinLines(p, page);
    var s := ReadAll(p, before.state.(above := None), page.number, lines, before.lines);
    after := Progress(s, before.pages + 1, before.lines + |lines|);
  }

  method Report(p: Patterns, s: State, pagesRead: nat) returns (e: Extraction)
    ensures e == Reported(p, s, pagesRead, |STATEMENTS|)
  {
    var statements: map<Table, ExtractedStatement> := map[];
    var problems := s.problems;
    for k := 0 to |STATEMENTS|
      invariant Extraction(statements, problems, pagesRead) == Reported(p, s, pagesRead, k)
    {
      var table := STATEMENTS[k];
      if table !in s.sections {
        problems := problems + [Problem(StatementNotFound, table, None)];
      } else if table in Failed(s.problems) {
        assert problems + [] == problems;
      } else if table !in s.done {
        problems := problems + [Problem(SectionEndNotFound, table, None)];
      } else {
        var built := BuildStatement(p, s.sections[table]);
        if built.Ok? {
          statements := statements[table := built.value];
        } else {
          problems := problems + built.error;
        }
      }
    }
    e := Extraction(statements, problems, pagesRead);
  }

  method ExtractStatements(p: Patterns, pages: seq<PageWords>) returns (e: Extraction)
    ensures e == Extracted(p, pages)
  {
    var read := Progress(START, 0, 0);
    var n := 0;
    while n < |pages|
      invariant n <= |pages|
      invariant ReadPages(p, read, pages, n) == ReadReport(p, pages)
    {
      if Finished(read.state) {
        break;
      }
      read := ReadOnePage(p, read, pages[n]);
      n := n + 1;
    }
    e := Report(p, read.state, read.pages);
  }

  // ---------------------------------------------------------------- a statement or its problems

  predicate Blamed(problems: seq<Problem>, table: Table) {
    table in Failed(problems)
  }

  lemma {:induction false} LocatedBlames(p: Patterns, section: Section, pages: seq<int>, i: nat)
    requires i < |Located(p, section, pages).problems|
    ensures Located(p, section, pages).problems[i].table == section.table
  {
    hide Columns, EdgesOn;
    var before := Located(p, section, pages[..|pages| - 1]);
    if i < |before.problems| {
      LocatedBlames(p, section, pages[..|pages| - 1], i);
    }
  }

  lemma ColumnsBlame(p: Patterns, section: Section, i: nat)
    requires i < |ColumnsByPage(p, section).problems|
    ensures ColumnsByPage(p, section).problems[i].table == section.table
  {
    LocatedBlames(p, section, PagesOf(section.lines), i);
  }

  lemma {:induction false} RowsBlame(p: Patterns, cols: map<int, (real, real)>, table: Table, lines: seq<Line>, n: nat)
    requires n <= |lines| && RowsOf(p, cols, table, lines, n).Err?
    ensures RowsOf(p, cols, table, lines, n).error.table == table
  {
    if RowsOf(p, cols, table, lines, n - 1).Err? {
      RowsBlame(p, cols, table, lines, n - 1);
    }
  }

  // A section that is not built is blamed at least once, and no other.
  lemma BuildBlames(p: Patterns, section: Section)
    requires Build(p, section).Err?
    ensures Failed(Build(p, section).error) == {section.table}
  {
    hide ColumnsByPage, RowsOf;
    var problems := Build(p, section).error;
    var per := ColumnsByPage(p, section);
    forall i | 0 <= i < |problems|
      ensures problems[i].table == section.table
    {
      if UnitOf(section).Some? && per.problems != [] {
        ColumnsBlame(p, section, i);
      } else if UnitOf(section).Some? && per.cols != map[] {
        RowsBlame(p, per.cols, section.table, section.lines, |section.lines|);
      }
    }
    assert problems[0].table == section.table;
  }

  lemma FailedConcat(a: seq<Problem>, b: seq<Problem>)
    ensures Failed(a + b) == Failed(a) + Failed(b)
  {
    assert forall i :: 0 <= i < |a| ==> (a + b)[i] == a[i];
    assert forall i :: 0 <= i < |b| ==> (a + b)[|a| + i] == b[i];
  }

  // The verdict on a statement blames that statement alone, and blames it unless it is already blamed.
  lemma VerdictBlames(p: Patterns, s: State, table: Table)
    requires (table in s.sections ==> s.sections[table].table == table) && Failed(s.problems) <= s.sections.Keys
    ensures Verdict(p, s, table).Err? ==> Failed(Verdict(p, s, table).error) == if table in Failed(s.problems) then {}
            else {table}
    ensures Verdict(p, s, table).Ok? ==> table !in Failed(s.problems)
                                         && Verdict(p, s, table) == Build(p, s.sections[table])
  {
    if table !in s.sections || table in Failed(s.problems) || table !in s.done {
      var problems := Verdict(p, s, table).error;
      assert |problems| == 1 ==> problems[0].table == table;
    } else if Build(p, s.sections[table]).Err? {
      BuildBlames(p, s.sections[table]);
    }
  }

  lemma {:induction false} ReportedOnce(p: Patterns, s: State, pagesRead: nat, n: nat, table: Table)
    requires n <= |STATEMENTS| && Failed(s.problems) <= s.sections.Keys
             && forall t :: t in s.sections ==>
                s.sections[t].table == t
    ensures var e := Reported(p, s, pagesRead, n); var judged := table in STATEMENTS[..n];
            && (table in e.statements <==> judged && Verdict(p, s, table).Ok?)
            && (table in e.statements ==> e.statements[table] == Verdict(p, s, table).value)
            && (Blamed(e.problems, table) <==> Blamed(s.problems, table) || (judged && Verdict(p, s, table).Err?))
  {
    if n > 0 {
      var last := STATEMENTS[n - 1];
      ReportedOnce(p, s, pagesRead, n - 1, table);
      VerdictBlames(p, s, last);
      assert STATEMENTS[..n] == STATEMENTS[..n - 1] + [last];
      if Verdict(p, s, last).Err? {
        FailedConcat(Reported(p, s, pagesRead, n - 1).problems, Verdict(p, s, last).error);
      }
    }
  }

  lemma EveryTableIsListed(table: Table)
    ensures table in STATEMENTS[..|STATEMENTS|]
  {
    assert STATEMENTS[..|STATEMENTS|] == STATEMENTS;
    match table
    case BalanceSheet => assert STATEMENTS[0] == table;
    case IncomeStatement => assert STATEMENTS[1] == table;
    case CashFlow => assert STATEMENTS[2] == table;
  }

  // For whatever pages, each statement is either returned or has a recorded problem, and never both.
  lemma StatementOrProblem(p: Patterns, pages: seq<PageWords>, table: Table)
    ensures table in Extracted(p, pages).statements <==> !Blamed(Extracted(p, pages).problems, table)
  {
    var read := ReadReport(p, pages);
    ReadReportKeeps(p, pages);
    forall t | t in read.state.sections
      ensures read.state.sections[t].table == t
    {
      assert SectionSound(read.state.sections[t], t, read.lines);
    }
    ReportedOnce(p, read.state, read.pages, |STATEMENTS|, table);
    VerdictBlames(p, read.state, table);
    EveryTableIsListed(table);
  }

  // ---------------------------------------------------------------- no amount in two columns

  predicate AllApart(cols: map<int, (real, real)>) {
    forall page :: page in cols ==> cols[page].1 - cols[page].0 > APART
  }

  lemma {:induction false} LocatedApart(p: Patterns, section: Section, pages: seq<int>)
    ensures AllApart(Located(p, section, pages).cols)
  {
    if pages != [] {
      LocatedApart(p, section, pages[..|pages| - 1]);
      var edges := EdgesOn(p, section.lines, pages[|pages| - 1]);
      if Columns(edges, section.sideBySide).Ok? {
        ColumnsAreApart(edges, section.sideBySide);
      }
    }
  }

  lemma {:induction false} BorrowedApart(per: PerPage, n: nat)
    requires n <= |per.sparse| && AllApart(per.cols)
    ensures AllApart(Borrowing(per, n).cols)
  {
    if n > 0 {
      BorrowedApart(per, n - 1);
    }
  }

  lemma ColumnsStayApart(p: Patterns, section: Section)
    ensures AllApart(ColumnsByPage(p, section).cols)
  {
    LocatedApart(p, section, PagesOf(section.lines));
    BorrowedApart(Located(p, section, PagesOf(section.lines)), |Located(p, section, PagesOf(section.lines)).sparse|);
  }

  // A row is read from one line of its section: at most one amount stands in each column, and they are
  // the row's two amounts.
  predicate ReadFrom(p: Patterns, statement: ExtractedStatement, row: ExtractedRow, line: Line) {
    && row.page == line.page
    && (line.page !in statement.columns ==> row.current.None? && row.prior.None?)
    && (line.page in statement.columns ==>
          var (left, right) := statement.columns[line.page];
          && |AmountsAt(p, line.words, left)| <= 1 && row.current == ReadAmount(p, AmountsAt(p, line.words, left))
          && |AmountsAt(p, line.words, right)| <= 1 && row.prior == ReadAmount(p, AmountsAt(p, line.words, right)))
  }

  lemma {:induction false} RowsAreRead(p: Patterns, statement: ExtractedStatement, table: Table, lines: seq<Line>,
      n: nat, i: nat)
    requires n <= |lines| && RowsOf(p, statement.columns, table, lines, n).Ok?
             && i < |RowsOf(p, statement.columns, table, lines, n).value|
    ensures exists k :: 0 <= k < n
                        && ReadFrom(p, statement, RowsOf(p, statement.columns, table, lines, n).value[i], lines[k])
  {
    var before := RowsOf(p, statement.columns, table, lines, n - 1).value;
    if i < |before| {
      RowsAreRead(p, statement, table, lines, n - 1, i);
    } else {
      assert ReadFrom(p, statement, RowsOf(p, statement.columns, table, lines, n).value[i], lines[n - 1]);
    }
  }

  // In a returned statement every row is read from a line of the statement's section, and no word is
  // near enough to both columns of its page to be read into both.
  lemma NoAmountInTwoColumns(p: Patterns, pages: seq<PageWords>, table: Table, i: nat, page: int, w: Word)
    requires table in Extracted(p, pages).statements && i < |Extracted(p, pages).statements[table].rows|
    ensures var statement, s := Extracted(p, pages).statements[table], ReadReport(p, pages).state;
            && table in s.sections && table in s.done
            && (exists k :: 0 <= k < |s.sections[table].lines|
                            && ReadFrom(p, statement, statement.rows[i], s.sections[table].lines[k]))
            && (page in statement.columns ==> !(At(w, statement.columns[page].0) && At(w, statement.columns[page].1)))
  {
    var read := ReadReport(p, pages);
    ReadReportKeeps(p, pages);
    forall t | t in read.state.sections
      ensures read.state.sections[t].table == t
    {
      assert SectionSound(read.state.sections[t], t, read.lines);
    }
    ReportedOnce(p, read.state, read.pages, |STATEMENTS|, table);
    var section := read.state.sections[table];
    ColumnsStayApart(p, section);
    RowsAreRead(p, Extracted(p, pages).statements[table], table, section.lines, |section.lines|, i);
  }
}
