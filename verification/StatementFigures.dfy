// Key figures taken from a report's own consolidated statements. A table is used only if it was read
// without a problem, its sums were checked and all come out, and its unit can be trusted.

module StatementFigures {
  import opened Common
  import opened Catalog
  import opened Statements
  import opened Labels
  import opened Checks
  import Quality

  const MIN_ITEMS := 3
  const TABLES: seq<Table> := [BalanceSheet, IncomeStatement, CashFlow]

  datatype Report = Report(year: int, title: string, disclosed: string, revised: bool)

  // What the figures are taken from: the extracted statements, how labels are read, the sums that must
  // come out, and amounts in yuan to compare the magnitude with.
  datatype Source = Source(
    statements: map<Table, ExtractedStatement>, lexicons: Table -> Lexicon, rules: seq<Rule>,
    references: map<Table, map<string, real>>)

  datatype Refusal = NotExtracted | NotReconciled | NotBalanced | UnitNot(verdict: UnitVerdict)

  datatype Parsed = Parsed(figures: seq<Figure>, firstPage: Option<int>, refused: seq<(Table, Refusal)>)

  function Resolved(lex: Lexicon, s: ExtractedStatement): Resolution {
    Concluded(After(lex, s.rows, |s.rows|))
  }

  function Reference(source: Source, table: Table): map<string, real> {
    if table in source.references then source.references[table] else map[]
  }

  function RefusalOf(source: Source, table: Table): Option<Refusal> {
    if table !in source.statements then Some(NotExtracted)
    else
      var s := source.statements[table];
      var r := Resolved(source.lexicons(table), s);
      var (checked, broken) := Balance(source.rules, s, r);
      if checked == 0 then Some(NotReconciled)
      else if broken != [] then Some(NotBalanced)
      else if !s.unitSource.OnStatement? && !CheckUnit(s, r, Reference(source, table), Current).0.Confirmed? then
        Some(UnitNot(CheckUnit(s, r, Reference(source, table), Current).0))
      else None
  }

  function FigureFor(report: Report, s: ExtractedStatement, values: map<string, real>, column: Column,
      item: Item): Figure
    requires FieldOf(item) in values
  {
    Figure(if column.Current? then report.year else report.year - 1, item, values[FieldOf(item)] * FactorOf(s.unit),
           if column.Current? then Original else Comparative,
           report.title, report.year, report.disclosed, report.revised, FactorOf(s.unit))
  }

  function ColumnFigures(report: Report, table: Table, s: ExtractedStatement, r: Resolution, column: Column,
      n: nat): seq<Figure>
    requires n <= |KEY_ITEMS|
  {
    if n == 0 then []
    else
      var item := KEY_ITEMS[n - 1];
      ColumnFigures(report, table, s, r, column, n - 1) +
      if TableOf(item) == table && FieldOf(item) in ValuesOf(r, column)
      then [FigureFor(report, s, ValuesOf(r, column), column, item)] else []
  }

  function TableFigures(source: Source, report: Report, table: Table): seq<Figure> {
    if RefusalOf(source, table).Some? then []
    else
      var s := source.statements[table];
      var r := Resolved(source.lexicons(table), s);
      ColumnFigures(report, table, s, r, Current, |KEY_ITEMS|) + ColumnFigures(report, table, s, r, Prior, |KEY_ITEMS|)
  }

  function Taken(source: Source, report: Report, n: nat): Parsed
    requires n <= |TABLES|
  {
    if n == 0 then Parsed([], None, [])
    else
      var before, table := Taken(source, report, n - 1), TABLES[n - 1];
      var refusal := RefusalOf(source, table);
      if refusal.Some? then before.(refused := before.refused + [(table, refusal.value)])
      else
        var start := source.statements[table].startPage;
        Parsed(before.figures + TableFigures(source, report, table),
               Some(if before.firstPage.Some? && before.firstPage.value != 0 then Min(before.firstPage.value, start)
                    else start), before.refused)
  }

  function OwnItems(figures: seq<Figure>, year: int): set<Item> {
    set f | f in figures && f.year == year :: f.item
  }

  // With too few figures of the report's own year there are none.
  function Outcome(source: Source, report: Report): Parsed {
    var taken := Taken(source, report, |TABLES|);
    if |OwnItems(taken.figures, report.year)| < MIN_ITEMS then Parsed([], None, taken.refused)
    else taken.(refused := [])
  }

  method FiguresFromStatements(source: Source, report: Report) returns (parsed: Parsed)
    ensures parsed == Outcome(source, report)
  {
    var figures: seq<Figure> := [];
    var firstPage: Option<int> := None;
    var refused: seq<(Table, Refusal)> := [];
    for n := 0 to |TABLES|
      invariant Taken(source, report, n) == Parsed(figures, firstPage, refused)
    {
      var table := TABLES[n];
      if table !in source.statements {
        refused := refused + [(table, NotExtracted)];
        continue;
      }
      var s := source.statements[table];
      var lines := Resolve(source.lexicons(table), s.rows);
      var checked, broken := Reconcile(source.rules, s, lines);
      if checked == 0 {
        refused := refused + [(table, NotReconciled)];
        continue;
      }
      if broken != [] {
        refused := refused + [(table, NotBalanced)];
        continue;
      }
      if !s.unitSource.OnStatement? {
        var verdict := CheckUnit(s, lines, Reference(source, table), Current).0;
        if !verdict.Confirmed? {
          refused := refused + [(table, UnitNot(verdict))];
          continue;
        }
      }
      firstPage := Some(if firstPage.Some? && firstPage.value != 0 then Min(firstPage.value, s.startPage)
                        else s.startPage);
      var current := TakeColumn(report, table, s, lines, Current);
      var prior := TakeColumn(report, table, s, lines, Prior);
      figures := figures + (current + prior);
    }
    if |OwnItems(figures, report.year)| < MIN_ITEMS {
      return Parsed([], None, refused);
    }
    parsed := Parsed(figures, firstPage, []);
  }

  method TakeColumn(report: Report, table: Table, s: ExtractedStatement, r: Resolution, column: Column)
      returns (figures: seq<Figure>)
    ensures figures == ColumnFigures(report, table, s, r, column, |KEY_ITEMS|)
  {
    var values := ValuesOf(r, column);
    figures := [];
    for n := 0 to |KEY_ITEMS|
      invariant figures == ColumnFigures(report, table, s, r, column, n)
    {
      var item := KEY_ITEMS[n];
      if TableOf(item) != table || FieldOf(item) !in values {
        continue;
      }
      figures := figures + [FigureFor(report, s, values, column, item)];
    }
  }

  // ---------------------------------------------------------------- what a figure stands for

  // The figure is the item's amount in a column of its table, in yuan, as exact as the table's unit.
  predicate IsFigure(source: Source, report: Report, column: Column, f: Figure) {
    var table := TableOf(f.item);
    && table in source.statements && RefusalOf(source, table).None?
    && var values := ValuesOf(Resolved(source.lexicons(table), source.statements[table]), column);
       && FieldOf(f.item) in values && f.precision == FactorOf(source.statements[table].unit)
       && f.value == values[FieldOf(f.item)] * FactorOf(source.statements[table].unit)
       && f.year + (if column.Current? then 0 else 1) == report.year
       && f.basis == (if column.Current? then Original else Comparative)
       && f.report == report.title && f.reportYear == report.year
       && f.disclosed == report.disclosed && f.revised == report.revised
  }

  lemma UsedIsExtracted(source: Source, table: Table)
    ensures RefusalOf(source, table) == None ==> table in source.statements
  {
  }

  lemma TakenIsFigure(source: Source, report: Report, column: Column, item: Item)
    requires TableOf(item) in source.statements && RefusalOf(source, TableOf(item)).None?
    requires FieldOf(item) in ValuesOf(Resolved(source.lexicons(TableOf(item)), source.statements[TableOf(item)]),
                                       column)
    ensures var s := source.statements[TableOf(item)];
            var f := FigureFor(report, s, ValuesOf(Resolved(source.lexicons(TableOf(item)), s), column), column, item);
            f.item == item && IsFigure(source, report, column, f)
  {
    hide RefusalOf, Resolved;
  }

  lemma {:induction false} InColumn(source: Source, report: Report, table: Table, column: Column, n: nat, f: Figure)
    requires n <= |KEY_ITEMS| && RefusalOf(source, table).None?
    requires f in ColumnFigures(report, table, source.statements[table],
                                Resolved(source.lexicons(table), source.statements[table]), column, n)
    ensures TableOf(f.item) == table && IsFigure(source, report, column, f)
  {
    hide RefusalOf, Resolved, FigureFor, IsFigure;
    UsedIsExtracted(source, table);
    var s := source.statements[table];
    var r := Resolved(source.lexicons(table), s);
    if f in ColumnFigures(report, table, s, r, column, n - 1) {
      InColumn(source, report, table, column, n - 1, f);
    } else {
      TakenIsFigure(source, report, column, KEY_ITEMS[n - 1]);
    }
  }

  lemma {:induction false} InTaken(source: Source, report: Report, n: nat, f: Figure)
    requires n <= |TABLES| && f in Taken(source, report, n).figures
    ensures IsFigure(source, report, Current, f) || IsFigure(source, report, Prior, f)
  {
    hide RefusalOf, Resolved, FigureFor, IsFigure;
    if f in Taken(source, report, n - 1).figures {
      InTaken(source, report, n - 1, f);
    } else {
      var table := TABLES[n - 1];
      UsedIsExtracted(source, table);
      var s := source.statements[table];
      var r := Resolved(source.lexicons(table), s);
      if f in ColumnFigures(report, table, s, r, Current, |KEY_ITEMS|) {
        InColumn(source, report, table, Current, |KEY_ITEMS|, f);
      } else {
        InColumn(source, report, table, Prior, |KEY_ITEMS|, f);
      }
    }
  }

  // Every figure comes from a table that passed every check, and is that table's amount.
  lemma OnlyCheckedTables(source: Source, report: Report, f: Figure)
    requires f in Outcome(source, report).figures
    ensures IsFigure(source, report, Current, f) || IsFigure(source, report, Prior, f)
  {
    InTaken(source, report, |TABLES|, f);
  }

  // A table whose unit is not printed on it, taken wrong by a thousand times or more, yields no figure
  // if its amounts are truly near the references.
  lemma WrongUnitYieldsNothing(source: Source, report: Report, table: Table, right: real, f: Figure)
    requires table in source.statements && !source.statements[table].unitSource.OnStatement?
    requires FarApart(FactorOf(source.statements[table].unit), right)
    requires TrulyNear(Resolved(source.lexicons(table), source.statements[table]), Reference(source, table), Current,
                       right)
    requires f in Outcome(source, report).figures
    ensures TableOf(f.item) != table
  {
    OnlyCheckedTables(source, report, f);
    UnitErrorCaught(source.statements[table], Resolved(source.lexicons(table), source.statements[table]),
                    Reference(source, table), Current, right);
  }

  lemma {:induction false} ColumnHas(report: Report, table: Table, s: ExtractedStatement, r: Resolution,
      column: Column, n: nat, k: nat)
    requires k < n <= |KEY_ITEMS| && TableOf(KEY_ITEMS[k]) == table && FieldOf(KEY_ITEMS[k]) in ValuesOf(r, column)
    ensures FigureFor(report, s, ValuesOf(r, column), column, KEY_ITEMS[k]) in ColumnFigures(report, table, s, r,
        column, n)
  {
    if k < n - 1 {
      ColumnHas(report, table, s, r, column, n - 1, k);
    }
  }

  lemma {:induction false} TakenGrows(source: Source, report: Report, k: nat, n: nat, f: Figure)
    requires k < n <= |TABLES| && f in TableFigures(source, report, TABLES[k])
    ensures f in Taken(source, report, n).figures
  {
    hide RefusalOf, ColumnFigures, Resolved;
    if k < n - 1 {
      TakenGrows(source, report, k, n - 1, f);
    }
  }

  // And nothing usable is left out: if there are enough figures, every key item a checked table gives is one.
  lemma EveryUsableAmount(source: Source, report: Report, column: Column, item: Item)
    requires Outcome(source, report).figures != []
    requires TableOf(item) in source.statements && RefusalOf(source, TableOf(item)).None?
    requires FieldOf(item) in ValuesOf(Resolved(source.lexicons(TableOf(item)), source.statements[TableOf(item)]),
                                       column)
    ensures exists f :: f in Outcome(source, report).figures && f.item == item && IsFigure(source, report, column, f)
  {
    hide RefusalOf, Resolved, FigureFor, IsFigure;
    var table := TableOf(item);
    var s := source.statements[table];
    var r := Resolved(source.lexicons(table), s);
    var f := FigureFor(report, s, ValuesOf(r, column), column, item);
    Quality.EveryItemIsKey(item);
    var k :| 0 <= k < |KEY_ITEMS| && KEY_ITEMS[k] == item;
    TakenIsFigure(source, report, column, item);
    ColumnHas(report, table, s, r, column, |KEY_ITEMS|, k);
    var t := if table == BalanceSheet then 0 else if table == IncomeStatement then 1 else 2;
    assert TABLES[t] == table;
    TakenGrows(source, report, t, |TABLES|, f);
  }

  // The figures of one report are coherent in the way the basis check needs.
  lemma FiguresAreCoherent(source: Source, report: Report)
    ensures var figures := Outcome(source, report).figures;
            Quality.TitlesFixReports(figures) && Quality.OneValueEach(figures) && Quality.NoMixedReport(figures)
  {
    hide RefusalOf, Resolved, Outcome;
    var figures := Outcome(source, report).figures;
    forall f | f in figures
      ensures IsFigure(source, report, if f.basis.Original? then Current else Prior, f)
      ensures f.basis.Original? || f.basis.Comparative?
    {
      OnlyCheckedTables(source, report, f);
    }
  }
}
