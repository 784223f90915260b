// What is read from a line, told in its words alone: which word is the current amount and which the prior
// one, what makes a line unreadable, and where the columns of a page come from.

module RowReading {
  import opened Common
  import opened Catalog
  import opened Statements
  import opened Layout
  import opened Sections
  import opened Extract

  // ---------------------------------------------------------------- amounts in a column

  // The k-th word is an amount in the column whose right edge this is.
  predicate Stands(p: Patterns, words: seq<Word>, k: int, edge: real) {
    0 <= k < |words| && p.number(words[k].text) && !p.cjk(words[k].text)
    && edge - 12.0 <= words[k].x1 <= edge + 12.0
  }

  // It looks like an amount there, and is none.
  predicate LooksBroken(p: Patterns, words: seq<Word>, k: int, edge: real) {
    0 <= k < |words| && p.numeric(words[k].text) && p.strong(words[k].text) && !p.number(words[k].text)
    && edge - 12.0 <= words[k].x1 <= edge + 12.0
  }

  lemma {:induction false} NoneStands(p: Patterns, words: seq<Word>, edge: real)
    ensures AmountsAt(p, words, edge) == [] <==> forall k :: !Stands(p, words, k, edge)
  {
    if words != [] {
      var n := |words| - 1;
      NoneStands(p, words[..n], edge);
      assert forall k :: 0 <= k < n ==> (Stands(p, words, k, edge) <==> Stands(p, words[..n], k, edge));
      assert Stands(p, words, n, edge) <==> p.number(words[n].text) && !p.cjk(words[n].text) && At(words[n], edge);
    }
  }

  lemma {:induction false} OneStands(p: Patterns, words: seq<Word>, edge: real, k: int)
    requires Stands(p, words, k, edge)
    ensures |AmountsAt(p, words, edge)| == 1 <==> forall j :: Stands(p, words, j, edge) ==> j == k
    ensures |AmountsAt(p, words, edge)| == 1 ==> AmountsAt(p, words, edge) == [words[k]]
    ensures |AmountsAt(p, words, edge)| >= 1
  {
    var n := |words| - 1;
    var before := words[..n];
    NoneStands(p, before, edge);
    assert forall j :: 0 <= j < n ==> (Stands(p, words, j, edge) <==> Stands(p, before, j, edge));
    assert Stands(p, words, n, edge) <==> p.number(words[n].text) && !p.cjk(words[n].text) && At(words[n], edge);
    if k < n {
      OneStands(p, before, edge, k);
      assert before[k] == words[k];
    }
  }

  predicate Two(p: Patterns, words: seq<Word>, edge: real) {
    exists j, k :: 0 <= j < k < |words| && Stands(p, words, j, edge) && Stands(p, words, k, edge)
  }

  lemma TwoStand(p: Patterns, words: seq<Word>, edge: real)
    ensures |AmountsAt(p, words, edge)| > 1 <==> Two(p, words, edge)
  {
    NoneStands(p, words, edge);
    if k :| Stands(p, words, k, edge) {
      OneStands(p, words, edge, k);
      if j :| Stands(p, words, j, edge) && j != k {
        assert Two(p, words, edge);
      }
    }
  }

  // The amount read in a column is that of the only word standing in it.
  ghost predicate Reads(p: Patterns, words: seq<Word>, edge: real, read: Option<real>) {
    && (read == None <==> forall k :: !Stands(p, words, k, edge))
    && (forall k :: Stands(p, words, k, edge) ==> read == Some(p.amount(words[k].text)))
    && !Two(p, words, edge)
  }

  lemma ReadsAmount(p: Patterns, words: seq<Word>, edge: real)
    requires |AmountsAt(p, words, edge)| <= 1
    ensures Reads(p, words, edge, ReadAmount(p, AmountsAt(p, words, edge)))
  {
    NoneStands(p, words, edge);
    TwoStand(p, words, edge);
    forall k | Stands(p, words, k, edge)
      ensures AmountsAt(p, words, edge) == [words[k]]
    {
      OneStands(p, words, edge, k);
    }
  }

  // ---------------------------------------------------------------- labels

  // The label of a line is what its words with Chinese characters say, in their order.
  lemma {:induction false} LabelsConcat(p: Patterns, a: seq<Word>, b: seq<Word>)
    ensures Labels(p, a + b) == Labels(p, a) + Labels(p, b)
  {
    if b == [] {
      assert a + b == a;
    } else {
      assert (a + b)[..|a + b| - 1] == a + b[..|b| - 1];
      LabelsConcat(p, a, b[..|b| - 1]);
    }
  }

  lemma LabelOfWord(p: Patterns, w: Word)
    ensures Labels(p, [w]) == if p.cjk(w.text) then [w] else []
    ensures Labels(p, []) == []
  {
  }

  // ---------------------------------------------------------------- one line

  // On a page with columns: a broken amount or a second amount in one column ends the reading; a line
  // without label and amounts gives no row; any other gives a row of the amounts in the two columns.
  lemma LineReads(p: Patterns, left: real, right: real, table: Table, line: Line)
    ensures var r := RowOf(p, Some((left, right)), table, line); var words := line.words;
            var broken := exists k :: LooksBroken(p, words, k, left) || LooksBroken(p, words, k, right);
            && (r == Err(Problem(BrokenAmount, table, Some(line.page))) <==> broken)
            && (r == Err(Problem(TwoAmountsInOneColumn, table, Some(line.page))) <==>
                !broken && (Two(p, words, left) || Two(p, words, right)))
            && (r.Err? ==> broken || Two(p, words, left) || Two(p, words, right))
            && (r.Ok? ==>
                  && (r.value == None <==> TextOf(Labels(p, words)) == ""
                                           && forall k :: !Stands(p, words, k, left) && !Stands(p, words, k, right))
                  && (r.value != None ==>
                        && r.value.value.page == line.page && r.value.value.name == p.squeeze(TextOf(Labels(p, words)))
                        && Reads(p, words, left, r.value.value.current) && Reads(p, words, right, r.value.value.prior)))
  {
    var words := line.words;
    NoneStands(p, words, left);
    NoneStands(p, words, right);
    TwoStand(p, words, left);
    TwoStand(p, words, right);
    if |AmountsAt(p, words, left)| <= 1 {
      ReadsAmount(p, words, left);
    }
    if |AmountsAt(p, words, right)| <= 1 {
      ReadsAmount(p, words, right);
    }
    forall k | 0 <= k < |words|
      ensures Broken(p, (left, right), words[k]) <==> LooksBroken(p, words, k, left) || LooksBroken(p, words, k, right)
    {
    }
  }

  // On a page without columns an amount ends the reading, and a label alone gives a row of text.
  lemma LineWithoutColumns(p: Patterns, table: Table, line: Line)
    ensures var r := RowOf(p, None, table, line); var said := TextOf(Labels(p, line.words));
            var amount := exists w :: w in line.words && p.number(w.text) && !p.cjk(w.text) && p.strong(w.text);
            r == if amount then Err(Problem(AmountsWithoutColumns, table, Some(line.page)))
                 else if said == "" then Ok(None)
                 else Ok(Some(ExtractedRow(line.page, p.squeeze(said), None, None)))
  {
    var amount := exists w :: w in line.words && p.number(w.text) && !p.cjk(w.text) && p.strong(w.text);
    if w :| w in line.words && p.number(w.text) && !p.cjk(w.text) && p.strong(w.text) {
      var k :| 0 <= k < |line.words| && line.words[k] == w;
      assert StrayAmount(p, line.words);
    }
    assert StrayAmount(p, line.words) <==> amount;
  }

  // ---------------------------------------------------------------- the rows of a statement

  // A row read from a line of a page with these columns, or without any.
  ghost predicate RowReads(p: Patterns, columns: map<int, (real, real)>, row: ExtractedRow, line: Line) {
    && row.page == line.page && row.name == p.squeeze(TextOf(Labels(p, line.words)))
    && (line.page !in columns ==> row.current == None && row.prior == None)
    && (line.page in columns ==>
          && Reads(p, line.words, columns[line.page].0, row.current)
          && Reads(p, line.words, columns[line.page].1, row.prior))
  }

  lemma RowOfLine(p: Patterns, columns: map<int, (real, real)>, table: Table, line: Line)
    requires RowOf(p, ColsOn(columns, line.page), table, line).Ok?
             && RowOf(p, ColsOn(columns, line.page), table, line).value.Some?
    ensures RowReads(p, columns, RowOf(p, ColsOn(columns, line.page), table, line).value.value, line)
  {
    if line.page in columns {
      LineReads(p, columns[line.page].0, columns[line.page].1, table, line);
    } else {
      LineWithoutColumns(p, table, line);
    }
  }

  // Each row comes from a line, and each line that gives a row has it among the rows.
  lemma {:induction false} RowsAreLines(p: Patterns, columns: map<int, (real, real)>, table: Table, lines: seq<Line>,
      n: nat)
    requires n <= |lines| && RowsOf(p, columns, table, lines, n).Ok?
    ensures forall row :: row in RowsOf(p, columns, table, lines, n).value ==>
              exists k :: 0 <= k < n && RowReads(p, columns, row, lines[k])
    ensures forall k :: 0 <= k < n ==>
              var r := RowOf(p, ColsOn(columns, lines[k].page), table, lines[k]);
              r.Ok? && (r.value.Some? ==> r.value.value in RowsOf(p, columns, table, lines, n).value)
  {
    hide RowReads, RowOf;
    if n > 0 {
      RowsAreLines(p, columns, table, lines, n - 1);
      var r := RowOf(p, ColsOn(columns, lines[n - 1].page), table, lines[n - 1]);
      if r.value.Some? {
        RowOfLine(p, columns, table, lines[n - 1]);
      }
    }
  }

  // In a returned statement every row is read from a line of the statement's section: its current amount
  // is that of the one word standing in the left column, its prior one that of the one word in the right
  // column, and these are different words.
  lemma NoWordReadTwice(p: Patterns, pages: seq<PageWords>, table: Table, row: ExtractedRow)
    requires table in Extracted(p, pages).statements && row in Extracted(p, pages).statements[table].rows
    ensures table in ReadReport(p, pages).state.sections
    ensures var statement := Extracted(p, pages).statements[table];
            var lines := ReadReport(p, pages).state.sections[table].lines;
            exists k :: 0 <= k < |lines| && RowReads(p, statement.columns, row, lines[k])
                        && (row.page in statement.columns ==>
                              var (left, right) := statement.columns[row.page];
                              forall a, b ::
                                Stands(p, lines[k].words, a, left) && Stands(p, lines[k].words, b, right) ==> a != b)
  {
    hide RowReads, RowsOf, ColumnsByPage;
    var statement := Extracted(p, pages).statements[table];
    var section := SectionOf(p, pages, table);
    RowsAreLines(p, statement.columns, table, section.lines, |section.lines|);
    var k :| 0 <= k < |section.lines| && RowReads(p, statement.columns, row, section.lines[k]);
    ColumnsStayApart(p, section);
    if row.page in statement.columns {
      StandsOnce(p, section.lines[k].words, statement.columns[row.page].0, statement.columns[row.page].1);
    }
  }

  lemma StandsOnce(p: Patterns, words: seq<Word>, left: real, right: real)
    requires right - left > APART
    ensures forall a, b :: Stands(p, words, a, left) && Stands(p, words, b, right) ==> a != b
  {
  }

  // Every line of the section that says something is among the rows.
  lemma EveryLineIsRead(p: Patterns, pages: seq<PageWords>, table: Table, k: nat)
    requires table in Extracted(p, pages).statements
    requires var sections := ReadReport(p, pages).state.sections;
             table in sections && k < |sections[table].lines|
    ensures var statement := Extracted(p, pages).statements[table];
            var line := ReadReport(p, pages).state.sections[table].lines[k];
            TextOf(Labels(p, line.words)) != ""
            || (line.page in statement.columns
                && exists j :: Stands(p, line.words, j, statement.columns[line.page].0)
                               || Stands(p, line.words, j, statement.columns[line.page].1)) ==>
              exists row :: row in statement.rows && RowReads(p, statement.columns, row, line)
  {
    hide RowReads, RowsOf, ColumnsByPage;
    var statement := Extracted(p, pages).statements[table];
    var section := SectionOf(p, pages, table);
    var line := section.lines[k];
    RowsAreLines(p, statement.columns, table, section.lines, |section.lines|);
    var r := RowOf(p, ColsOn(statement.columns, line.page), table, line);
    if line.page in statement.columns {
      LineReads(p, statement.columns[line.page].0, statement.columns[line.page].1, table, line);
    } else {
      LineWithoutColumns(p, table, line);
    }
    if r.value.Some? {
      RowOfLine(p, statement.columns, table, line);
    }
  }

  // A returned statement was built from its closed section.
  lemma SectionOf(p: Patterns, pages: seq<PageWords>, table: Table) returns (section: Section)
    requires table in Extracted(p, pages).statements
    ensures table in ReadReport(p, pages).state.sections && section == ReadReport(p, pages).state.sections[table]
    ensures section.table == table && table in ReadReport(p, pages).state.done
    ensures var statement := Extracted(p, pages).statements[table];
            && Build(p, section) == Ok(statement)
            && statement.columns == ColumnsByPage(p, section).cols
            && RowsOf(p, statement.columns, table, section.lines, |section.lines|) == Ok(statement.rows)
  {
    hide Verdict, Build, Reported, ReadReport;
    var read := ReadReport(p, pages);
    ReadReportKeeps(p, pages);
    forall t | t in read.state.sections
      ensures read.state.sections[t].table == t
    {
      assert SectionSound(read.state.sections[t], t, read.lines);
    }
    EveryTableIsListed(table);
    ReportedOnce(p, read.state, read.pages, |STATEMENTS|, table);
    OkVerdict(p, read.state, table);
    section := read.state.sections[table];
    BuiltOf(p, section);
  }

  lemma OkVerdict(p: Patterns, s: State, table: Table)
    requires Verdict(p, s, table).Ok?
    ensures table in s.sections && table in s.done && Verdict(p, s, table) == Build(p, s.sections[table])
  {
    hide Build;
  }

  lemma BuiltOf(p: Patterns, section: Section)
    requires Build(p, section).Ok?
    ensures var s := Build(p, section).value;
            && s.columns == ColumnsByPage(p, section).cols
            && RowsOf(p, s.columns, section.table, section.lines, |section.lines|) == Ok(s.rows)
  {
    hide ColumnsByPage, RowsOf;
  }
}
