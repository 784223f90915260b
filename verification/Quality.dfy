// The quality checks that can block a dataset: the screening of old periods, the sums that must be
// zero, and the agreement with the annual reports that a basis claims.

module Quality {
  import opened Common
  import opened Catalog
  import opened BasisDecision
  import Screening

  // ---------------------------------------------------------------- agreement with the reports

  // The last of the first n rows that is the table's annual row of the year.
  function LookedUp(rows: seq<Row>, n: nat, table: Table, year: int): (found: Option<nat>)
    requires n <= |rows|
    ensures found.Some? ==> found.value < n && IsAnnual(rows[found.value], table, year)
    ensures found.None? ==> forall i :: 0 <= i < n ==> !IsAnnual(rows[i], table, year)
  {
    if n == 0 then None
    else if IsAnnual(rows[n - 1], table, year) then Some(n - 1)
    else LookedUp(rows, n - 1, table, year)
  }

  predicate IsAnnual(r: Row, table: Table, year: int) {
    r.table == table && r.kind.Annual? && r.year == year
  }

  // A row claims to be checked against the figure's report on the figure's basis.
  predicate Compared(rows: seq<Row>, f: Figure) {
    var i := LookedUp(rows, |rows|, TableOf(f.item), f.year);
    && !f.basis.Comparative? && i.Some?
    && rows[i.value].basis == f.basis && rows[i.value].against == Some(f.report)
    && FieldOf(f.item) in rows[i.value].values
  }

  predicate Contradicts(rows: seq<Row>, f: Figure) {
    var i := LookedUp(rows, |rows|, TableOf(f.item), f.year);
    Compared(rows, f) && !Close(rows[i.value].values[FieldOf(f.item)], f.value, f.precision)
  }

  function Contradictions(rows: seq<Row>, figures: seq<Figure>, n: nat): seq<Figure>
    requires n <= |figures|
  {
    if n == 0 then []
    else Contradictions(rows, figures, n - 1) + if Contradicts(rows, figures[n - 1]) then [figures[n - 1]] else []
  }

  function ComparedCount(rows: seq<Row>, figures: seq<Figure>, n: nat): nat
    requires n <= |figures|
  {
    if n == 0 then 0 else ComparedCount(rows, figures, n - 1) + if Compared(rows, figures[n - 1]) then 1 else 0
  }

  method Official(rows: seq<Row>, figures: seq<Figure>) returns (passed: bool, checked: nat, violations: seq<Figure>)
    ensures violations == Contradictions(rows, figures, |figures|)
    ensures passed <==> violations == []
    ensures checked == ComparedCount(rows, figures, |figures|)
  {
    var lookup: map<(Table, int), Row> := map[];
    for n := 0 to |rows|
      invariant forall table, year :: ((table, year) in lookup <==> LookedUp(rows, n, table, year).Some?)
      invariant forall table,
                year :: (table, year) in lookup ==> lookup[(table, year)] == rows[LookedUp(rows, n, table, year).value]
    {
      if rows[n].kind.Annual? {
        lookup := lookup[(rows[n].table, rows[n].year) := rows[n]];
      }
    }
    violations, checked := [], 0;
    for n := 0 to |figures|
      invariant violations == Contradictions(rows, figures, n) && checked == ComparedCount(rows, figures, n)
    {
      var f := figures[n];
      if f.basis.Comparative? || (TableOf(f.item), f.year) !in lookup {
        continue;
      }
      var row := lookup[(TableOf(f.item), f.year)];
      if row.basis != f.basis || row.against != Some(f.report) || FieldOf(f.item) !in row.values {
        continue;
      }
      checked := checked + 1;
      if !Close(row.values[FieldOf(f.item)], f.value, f.precision) {
        violations := violations + [f];
      }
    }
    passed := violations == [];
  }

  // ---------------------------------------------------------------- the decision implies the check

  // A title names one report: its date, whether it is a revision, and its year.
  ghost predicate TitlesFixReports(figures: seq<Figure>) {
    forall f, g :: f in figures && g in figures && f.report == g.report ==>
        KeyOf(f) == KeyOf(g) && f.reportYear == g.reportYear
  }

  predicate SamePlace(f: Figure, g: Figure) {
    f.year == g.year && f.basis == g.basis && f.report == g.report && f.item == g.item
  }

  ghost predicate OneValueEach(figures: seq<Figure>) {
    forall f, g :: f in figures && g in figures && SamePlace(f, g) ==> f.value == g.value && f.precision == g.precision
  }

  ghost predicate NoMixedReport(figures: seq<Figure>) {
    forall f, g :: f in figures && g in figures && f.report == g.report && f.year == g.year && f.basis.Restated? ==>
        !g.basis.Comparative?
  }

  ghost predicate OneAnnualRow(rows: seq<Row>) {
    forall i, j :: 0 <= i < |rows| && 0 <= j < |rows| && IsAnnual(rows[i], rows[j].table, rows[j].year)
                   && rows[j].kind.Annual? ==>
                      i == j
  }

  // What a column of the reports holds was printed on one of its figures.
  lemma {:induction false} ColumnSource(figures: seq<Figure>, n: nat, year: int, basis: Basis, own: Option<bool>,
      k: Key)
    requires n <= |figures| && k in ColumnOf(figures, n, year, basis, own)
    ensures exists f :: f in figures && Selected(f, year, basis, own) && KeyOf(f) == k
  {
    if Selected(figures[n - 1], year, basis, own) && KeyOf(figures[n - 1]) == k {
      assert figures[n - 1] in figures;
    } else {
      ColumnSource(figures, n - 1, year, basis, own, k);
    }
  }

  lemma {:induction false} CellSource(figures: seq<Figure>, n: nat, year: int, basis: Basis, own: Option<bool>,
      k: Key, item: Item)
    requires n <= |figures| && k in ColumnOf(figures, n, year, basis, own)
             && item in ColumnOf(figures, n, year, basis, own)[k]
    ensures exists f :: f in figures && Selected(f, year, basis, own) && KeyOf(f) == k && f.item == item
                        && ColumnOf(figures, n, year, basis, own)[k][item] == Cell(f.value, f.precision)
  {
    var f := figures[n - 1];
    if Selected(f, year, basis, own) && KeyOf(f) == k && f.item == item {
      assert f in figures;
    } else {
      CellSource(figures, n - 1, year, basis, own, k, item);
    }
  }

  lemma {:induction false} ColumnHolds(figures: seq<Figure>, n: nat, i: nat, year: int, basis: Basis, own: Option<bool>)
    requires i < n <= |figures| && Selected(figures[i], year, basis, own)
    ensures KeyOf(figures[i]) in ColumnOf(figures, n, year, basis, own)
    ensures figures[i].item in ColumnOf(figures, n, year, basis, own)[KeyOf(figures[i])]
  {
    if i < n - 1 {
      ColumnHolds(figures, n - 1, i, year, basis, own);
    }
  }

  // In coherent reports, a figure of the report a column was chosen for is the column's own cell.
  lemma ChosenCell(figures: seq<Figure>, i: nat, year: int, basis: Basis, own: Option<bool>, k: Key)
    requires TitlesFixReports(figures) && OneValueEach(figures)
    requires i < |figures| && figures[i].year == year && figures[i].basis == basis && figures[i].report == k.report
    requires k in ColumnOf(figures, |figures|, year, basis, own)
    ensures figures[i].item in ColumnOf(figures, |figures|, year, basis, own)[k]
    ensures ColumnOf(figures, |figures|, year, basis, own)[k][figures[i].item] ==
            Cell(figures[i].value, figures[i].precision)
  {
    var f := figures[i];
    assert f in figures;
    ColumnSource(figures, |figures|, year, basis, own, k);
    var g :| g in figures && Selected(g, year, basis, own) && KeyOf(g) == k;
    assert f.report == g.report;
    ColumnHolds(figures, |figures|, i, year, basis, own);
    CellSource(figures, |figures|, year, basis, own, k, f.item);
    var h :| h in figures && Selected(h, year, basis, own) && KeyOf(h) == k && h.item == f.item
    && ColumnOf(figures, |figures|, year, basis, own)[k][f.item] == Cell(h.value, h.precision);
    assert SamePlace(f, h);
  }

  lemma {:induction false} OnlyAnnualValue(rows: seq<Row>, n: nat, i: nat, item: Item)
    requires OneAnnualRow(rows) && i < n <= |rows| && IsAnnual(rows[i], TableOf(item), rows[i].year)
             && FieldOf(item) in rows[i].values
    ensures LastValue(rows, n, item, rows[i].year) == Some(rows[i].values[FieldOf(item)])
  {
    var r := rows[n - 1];
    if r.table == TableOf(item) && r.kind.Annual? && r.year == rows[i].year {
      assert IsAnnual(rows[n - 1], rows[i].table, rows[i].year);
    } else {
      OnlyAnnualValue(rows, n - 1, i, item);
    }
  }

  lemma EveryItemIsKey(item: Item)
    ensures item in KEY_ITEMS
  {}

  // Marking changes neither which row is looked up nor its values.
  lemma {:induction false} MarkedLookup(rows: seq<Row>, figures: seq<Figure>, n: nat, table: Table, year: int)
    requires n <= |rows|
    ensures LookedUp(Assigned(rows, figures), n, table, year) == LookedUp(rows, n, table, year)
  {
    if n > 0 && !IsAnnual(rows[n - 1], table, year) {
      MarkedLookup(rows, figures, n - 1, table, year);
    }
  }

  ghost predicate ReportAgrees(figures: seq<Figure>, year: int, basis: Basis, own: Option<bool>,
      statement: map<Item, real>, report: string) {
    exists k :: k in Agreeing(ColumnOf(figures, |figures|, year, basis, own), statement) && k.report == report
  }

  // If a report's column agreed, so does each of its figures.
  lemma FigureAgrees(rows: seq<Row>, figures: seq<Figure>, i: nat, own: Option<bool>, r: nat)
    requires TitlesFixReports(figures) && OneValueEach(figures) && OneAnnualRow(rows)
    requires i < |figures| && r < |rows| && IsAnnual(rows[r], TableOf(figures[i].item), figures[i].year)
             && FieldOf(figures[i].item) in rows[r].values
    requires ReportAgrees(figures, figures[i].year, figures[i].basis, own, ValuesOf(rows, figures[i].year),
                          figures[i].report)
    ensures Close(rows[r].values[FieldOf(figures[i].item)], figures[i].value, figures[i].precision)
  {
    var f := figures[i];
    var column, statement := ColumnOf(figures, |figures|, f.year, f.basis, own), ValuesOf(rows, f.year);
    var k :| k in Agreeing(column, statement) && k.report == f.report;
    ChosenCell(figures, i, f.year, f.basis, own, k);
    OnlyAnnualValue(rows, |rows|, r, f.item);
    EveryItemIsKey(f.item);
    assert f.item in statement.Keys * column[k].Keys;
  }

  predicate SomeAgree(figures: seq<Figure>, year: int, basis: Basis, own: Option<bool>, statement: map<Item, real>) {
    Agreeing(ColumnOf(figures, |figures|, year, basis, own), statement) != {}
  }

  // The first report of the column that agrees is this one.
  ghost predicate FirstIs(figures: seq<Figure>, year: int, basis: Basis, own: Option<bool>,
      statement: map<Item, real>, report: string) {
    exists k :: IsFirst(k, Agreeing(ColumnOf(figures, |figures|, year, basis, own), statement)) && k.report == report
  }

  predicate Disclosed(figures: seq<Figure>, year: int) {
    exists f :: f in figures && f.year == year && f.basis.Original?
  }

  lemma DisclosedColumns(figures: seq<Figure>, year: int)
    ensures Disclosed(figures, year) <==>
            ColumnOf(figures, |figures|, year, Original, Some(true)) != map[]
            || ColumnOf(figures, |figures|, year, Original, Some(false)) != map[]
  {
    if Disclosed(figures, year) {
      var f :| f in figures && f.year == year && f.basis.Original?;
      var i :| 0 <= i < |figures| && figures[i] == f;
      ColumnHolds(figures, |figures|, i, year, Original, Some(f.reportYear == year));
    }
    forall own, k | k in ColumnOf(figures, |figures|, year, Original, own)
      ensures Disclosed(figures, year)
    {
      ColumnSource(figures, |figures|, year, Original, own, k);
    }
  }

  // As first disclosed: some report printing the year as its own or unadjusted agrees. Restated: none
  // does, but a restated column agrees, or a later comparison does although the year was disclosed. The
  // report named is the first that agrees: of the year's own before later ones, of restated columns
  // before comparisons.
  lemma DecisionMeans(year: int, statement: map<Item, real>, figures: seq<Figure>)
    ensures var d := Decided(year, statement, figures);
            var own, later := SomeAgree(figures, year, Original, Some(true), statement),
                              SomeAgree(figures, year, Original, Some(false), statement);
            var restated, compared :=
                SomeAgree(figures, year, Restated, None, statement),
                SomeAgree(figures, year, Comparative, None, statement);
            && (d.basis.Original? <==> own || later)
            && (d.basis.Restated? <==> !own && !later && (restated || (Disclosed(figures, year) && compared)))
            && !d.basis.Comparative? && (d.basis.Unverified? <==> d.against.None?)
            && (d.basis.Original? ==> FirstIs(figures, year, Original, Some(own), statement, d.against.value))
            && (d.basis.Restated? ==>
                  FirstIs(figures, year, if restated then Restated else Comparative, None, statement, d.against.value))
  {
    DisclosedColumns(figures, year);
  }

  // The figure is restated, but the year was decided by the comparative column of its report, and the
  // row does not hold the restated value.
  ghost predicate Misjudged(rows: seq<Row>, figures: seq<Figure>, f: Figure) {
    var statement := ValuesOf(rows, f.year);
    && f.basis.Restated?
    && !SomeAgree(figures, f.year, Original, Some(true), statement)
       && !SomeAgree(figures, f.year, Original, Some(false), statement)
    && !SomeAgree(figures, f.year, Restated, None, statement)
    && Disclosed(figures, f.year) && FirstIs(figures, f.year, Comparative, None, statement, f.report)
    && exists r :: r in rows && IsAnnual(r, TableOf(f.item), f.year) && FieldOf(f.item) in r.values
                   && !Close(r.values[FieldOf(f.item)], f.value, f.precision)
  }

  // Of coherent reports and rows, exactly these figures contradict the basis just assigned.
  lemma OfficialContradicts(rows: seq<Row>, figures: seq<Figure>, i: nat)
    requires TitlesFixReports(figures) && OneValueEach(figures) && OneAnnualRow(rows) && i < |figures|
    ensures Contradicts(Assigned(rows, figures), figures[i]) <==> Misjudged(rows, figures, figures[i])
  {
    var f := figures[i];
    var statement := ValuesOf(rows, f.year);
    DecisionMeans(f.year, statement, figures);
    if Contradicts(Assigned(rows, figures), f) {
      ContradictedIsMisjudged(rows, figures, i);
    }
    if Misjudged(rows, figures, f) {
      MisjudgedIsContradicted(rows, figures, i);
    }
  }

  lemma ContradictedIsMisjudged(rows: seq<Row>, figures: seq<Figure>, i: nat)
    requires TitlesFixReports(figures) && OneValueEach(figures) && OneAnnualRow(rows) && i < |figures|
    requires Contradicts(Assigned(rows, figures), figures[i])
    ensures Misjudged(rows, figures, figures[i])
  {
    hide Decided, Close, Agreeing, IsFirst;
    var f := figures[i];
    var marked, statement := Assigned(rows, figures), ValuesOf(rows, f.year);
    MarkedLookup(rows, figures, |rows|, TableOf(f.item), f.year);
    var r := LookedUp(rows, |rows|, TableOf(f.item), f.year).value;
    assert marked[r] == Marked(rows, figures, rows[r]);
    DecisionMeans(f.year, statement, figures);
    forall own | FirstIs(figures, f.year, f.basis, own, statement, f.report)
      ensures false
    {
      FirstAgrees(figures, f.year, f.basis, own, statement, f.report);
      FigureAgrees(rows, figures, i, own, r);
    }
    assert rows[r] in rows;
  }

  lemma FirstAgrees(figures: seq<Figure>, year: int, basis: Basis, own: Option<bool>, statement: map<Item, real>,
      report: string)
    requires FirstIs(figures, year, basis, own, statement, report)
    ensures ReportAgrees(figures, year, basis, own, statement, report)
  {
  }

  lemma MisjudgedIsContradicted(rows: seq<Row>, figures: seq<Figure>, i: nat)
    requires OneAnnualRow(rows) && i < |figures| && Misjudged(rows, figures, figures[i])
    ensures Contradicts(Assigned(rows, figures), figures[i])
  {
    hide Close, Agreeing, IsFirst;
    var f := figures[i];
    var marked, statement := Assigned(rows, figures), ValuesOf(rows, f.year);
    MarkedLookup(rows, figures, |rows|, TableOf(f.item), f.year);
    var row :| row in rows && IsAnnual(row, TableOf(f.item), f.year) && FieldOf(f.item) in row.values
               && !Close(row.values[FieldOf(f.item)], f.value, f.precision);
    var r := LookedUp(rows, |rows|, TableOf(f.item), f.year).value;
    assert rows[r] == row;
    assert marked[r] == Marked(rows, figures, rows[r]);
    DecisionMeans(f.year, statement, figures);
    FirstIsSome(figures, f.year, statement, f.report);
    FirstIsOnly(figures, f.year, statement, f.report, DecisionFor(rows, figures, f.year).against.value);
  }

  lemma FirstIsSome(figures: seq<Figure>, year: int, statement: map<Item, real>, report: string)
    requires FirstIs(figures, year, Comparative, None, statement, report)
    ensures SomeAgree(figures, year, Comparative, None, statement)
  {
  }

  lemma FirstIsOnly(figures: seq<Figure>, year: int, statement: map<Item, real>, a: string, b: string)
    requires FirstIs(figures, year, Comparative, None, statement, a)
             && FirstIs(figures, year, Comparative, None, statement, b)
    ensures a == b
  {
    var keys := Agreeing(ColumnOf(figures, |figures|, year, Comparative, None), statement);
    var k :| IsFirst(k, keys) && k.report == a;
    var l :| IsFirst(l, keys) && l.report == b;
    SoonerIsTotal(k, l);
  }

  // So Q-OFFICIAL never fails after assign_basis if no report prints a year both restated and merely
  // for comparison.
  lemma OfficialAlwaysPasses(rows: seq<Row>, figures: seq<Figure>, i: nat)
    requires TitlesFixReports(figures) && OneValueEach(figures) && NoMixedReport(figures) && OneAnnualRow(rows)
    requires i < |figures|
    ensures !Contradicts(Assigned(rows, figures), figures[i])
  {
    var f := figures[i];
    assert f in figures;
    OfficialContradicts(rows, figures, i);
    if Misjudged(rows, figures, f) {
      var k :| IsFirst(k, Agreeing(ColumnOf(figures, |figures|, f.year, Comparative, None), ValuesOf(rows, f.year)))
      && k.report == f.report;
      ColumnSource(figures, |figures|, f.year, Comparative, None, k);
    }
  }

  lemma {:induction false} NoneIsEmpty(rows: seq<Row>, figures: seq<Figure>, n: nat)
    requires n <= |figures|
    ensures Contradictions(rows, figures, n) == [] <==> forall i :: 0 <= i < n ==> !Contradicts(rows, figures[i])
  {
    if n > 0 {
      NoneIsEmpty(rows, figures, n - 1);
    }
  }

  // Q-OFFICIAL passes after assign_basis exactly when no figure is misjudged.
  lemma PassesExactly(rows: seq<Row>, figures: seq<Figure>)
    requires TitlesFixReports(figures) && OneValueEach(figures) && OneAnnualRow(rows)
    ensures Contradictions(Assigned(rows, figures), figures, |figures|) == [] <==>
            forall f :: f in figures ==> !Misjudged(rows, figures, f)
  {
    hide Misjudged, Contradicts;
    NoneIsEmpty(Assigned(rows, figures), figures, |figures|);
    forall i | 0 <= i < |figures|
      ensures Contradicts(Assigned(rows, figures), figures[i]) <==> Misjudged(rows, figures, figures[i])
      ensures figures[i] in figures
    {
      OfficialContradicts(rows, figures, i);
    }
  }

  lemma NoContradictions(rows: seq<Row>, figures: seq<Figure>)
    requires TitlesFixReports(figures) && OneValueEach(figures) && NoMixedReport(figures) && OneAnnualRow(rows)
    ensures Contradictions(Assigned(rows, figures), figures, |figures|) == []
  {
    forall i | 0 <= i < |figures|
      ensures !Contradicts(Assigned(rows, figures), figures[i])
    {
      OfficialAlwaysPasses(rows, figures, i);
    }
    NoneIsEmpty(Assigned(rows, figures), figures, |figures|);
  }

  // A build screens, then decides the basis, then checks: the figures then agree with the reports, and
  // the sums can flag only years inside the hard window, since marking touches no value.
  lemma Built(rules: seq<Rule>, rows: seq<Row>, figures: seq<Figure>, hardYears: int, k: nat, r: Row)
    requires rows != [] && k < |rules|
    requires TitlesFixReports(figures) && OneValueEach(figures) && NoMixedReport(figures)
    requires OneAnnualRow(Screening.After(rules, rows, hardYears))
    ensures var marked := Assigned(Screening.After(rules, rows, hardYears), figures);
            && Contradictions(marked, figures, |figures|) == []
            && (r in Screening.Breaks(rules[k], marked, |marked|) ==>
               r.year >= Screening.FirstHardYear(rows, hardYears))
  {
    var kept := Screening.After(rules, rows, hardYears);
    var marked := Assigned(kept, figures);
    NoContradictions(kept, figures);
    Screening.BreaksAreBroken(rules[k], marked, |marked|, r);
    if r in Screening.Breaks(rules[k], marked, |marked|) {
      assert marked[..|marked|] == marked;
      var i :| 0 <= i < |marked| && marked[i] == r;
      assert marked[i] == Marked(kept, figures, kept[i]);
      Screening.BrokenOnlyInside(rules, rows, hardYears, k, kept[i]);
    }
  }

  // ---------------------------------------------------------------- the condition is needed

  // Both parsers drop a report in which they recognize fewer than three items of its own year, and no
  // figure is of a later year.
  const MIN_OWN := 3

  function OwnItems(figures: seq<Figure>, report: string): set<Item> {
    set f | f in figures && f.report == report && f.year == f.reportYear :: f.item
  }

  ghost predicate Recognized(figures: seq<Figure>) {
    forall f :: f in figures ==> f.year <= f.reportYear && |OwnItems(figures, f.report)| >= MIN_OWN
  }

  // Report B prints 2020 twice: once adjusted, with another operating income, and once for comparison.
  // The row agrees with neither A nor the adjusted column, but with the comparison.
  function RowOfA(item: Item): seq<Figure> {
    [Figure(2020, item, 0.0, Original, "A", 2020, "2021-04-01", false, 1.0)]
  }

  function RowOfB(item: Item, adjusted: real): seq<Figure> {
    [Figure(2021, item, 1000.0, Original, "B", 2021, "2022-04-01", false, 1.0),
     Figure(2020, item, adjusted, Restated, "B", 2021, "2022-04-01", false, 1.0),
     Figure(2020, item, 100.0, Comparative, "B", 2021, "2022-04-01", false, 1.0)]
  }

  const MIXED: seq<Figure> :=
    RowOfA(OperateIncome) + RowOfA(TotalProfit) + RowOfA(ParentNetprofit)
    + RowOfB(OperateIncome, 500.0) + RowOfB(TotalProfit, 100.0) + RowOfB(ParentNetprofit, 100.0)

  const MIXED_ROW := Row(IncomeStatement, "2020-12-31", Annual, 2020,
                         map["operate_income" := 100.0, "total_profit" := 100.0, "parent_netprofit" := 100.0],
                         Unverified, false, None)

  const MIXED_STATEMENT := map[OperateIncome := 100.0, TotalProfit := 100.0, ParentNetprofit := 100.0]

  const KEY_OF_B := Key("2022-04-01", false, "B")

  // What a figure of the example is, from its place.
  predicate MixedFigure(f: Figure) {
    && f.item in MIXED_STATEMENT && f.precision == 1.0 && !f.basis.Unverified?
    && (f.report == "A" ==> f.basis.Original? && f.year == f.reportYear == 2020 && f.value == 0.0
                            && KeyOf(f) == Key("2021-04-01", false, "A"))
    && (f.report != "A" ==> f.report == "B" && f.reportYear == 2021 && KeyOf(f) == KEY_OF_B
                            && f.year == (if f.basis.Original? then 2021 else 2020)
                            && f.value == if f.basis.Original? then 1000.0
                                          else if f.basis.Restated? && f.item.OperateIncome? then 500.0 else 100.0)
  }

  lemma MixedFigures()
    ensures forall f :: f in MIXED ==> MixedFigure(f)
  {
    forall f | f in MIXED
      ensures MixedFigure(f)
    {
      assert f in RowOfA(OperateIncome) || f in RowOfA(TotalProfit) || f in RowOfA(ParentNetprofit)
          || f in RowOfB(OperateIncome, 500.0) || f in RowOfB(TotalProfit, 100.0)
             || f in RowOfB(ParentNetprofit, 100.0);
    }
  }

  lemma MixedIsCoherent()
    ensures TitlesFixReports(MIXED) && OneValueEach(MIXED) && OneAnnualRow([MIXED_ROW]) && Recognized(MIXED)
  {
    MixedFigures();
    MixedOwnItems();
    forall report | report == "A" || report == "B"
      ensures |OwnItems(MIXED, report)| >= MIN_OWN
    {
      AtLeastThree(OwnItems(MIXED, report));
    }
  }

  lemma MixedOwnItems()
    ensures forall report :: report == "A"
                             || report == "B" ==>
                                {OperateIncome, TotalProfit, ParentNetprofit} <= OwnItems(MIXED, report)
  {
    assert MIXED[0] in MIXED && MIXED[1] in MIXED && MIXED[2] in MIXED;
    assert MIXED[3] in MIXED && MIXED[6] in MIXED && MIXED[9] in MIXED;
  }

  lemma AtLeastThree(items: set<Item>)
    requires {OperateIncome, TotalProfit, ParentNetprofit} <= items
    ensures |items| >= 3
  {
    SmallerSet({OperateIncome, TotalProfit, ParentNetprofit}, items);
  }

  lemma MixedStatement()
    ensures ValuesOf([MIXED_ROW], 2020) == MIXED_STATEMENT
  {
    EveryItemIsKey(OperateIncome);
    EveryItemIsKey(TotalProfit);
    EveryItemIsKey(ParentNetprofit);
    forall item: Item
      ensures LastValue([MIXED_ROW], 1, item, 2020) == if item in MIXED_STATEMENT then Some(100.0) else None
    {
    }
  }

  // One figure that is not close to its item is enough against a report's column.
  lemma FigureDisagrees(figures: seq<Figure>, i: nat, own: Option<bool>, statement: map<Item, real>)
    requires TitlesFixReports(figures) && OneValueEach(figures) && i < |figures|
    requires figures[i].item in statement && !Close(statement[figures[i].item], figures[i].value, figures[i].precision)
    ensures !ReportAgrees(figures, figures[i].year, figures[i].basis, own, statement, figures[i].report)
  {
    var f := figures[i];
    var column := ColumnOf(figures, |figures|, f.year, f.basis, own);
    if ReportAgrees(figures, f.year, f.basis, own, statement, f.report) {
      var k :| k in Agreeing(column, statement) && k.report == f.report;
      ChosenCell(figures, i, f.year, f.basis, own, k);
    }
  }

  lemma MixedPlaces()
    ensures |MIXED| == 12 && MIXED[0] == RowOfA(OperateIncome)[0] && MIXED[4] == RowOfB(OperateIncome, 500.0)[1]
    ensures Disclosed(MIXED, 2020)
  {
    assert MIXED[0] in MIXED;
  }

  lemma MixedDisagrees(basis: Basis, own: Option<bool>)
    requires !basis.Comparative?
    ensures !SomeAgree(MIXED, 2020, basis, own, MIXED_STATEMENT)
  {
    hide ColumnOf, Agrees, MIXED, TitlesFixReports, OneValueEach, OneAnnualRow, Recognized, Disclosed;
    MixedFigures();
    MixedPlaces();
    MixedIsCoherent();
    forall k | k in Agreeing(ColumnOf(MIXED, |MIXED|, 2020, basis, own), MIXED_STATEMENT)
      ensures false
    {
      ColumnSource(MIXED, |MIXED|, 2020, basis, own, k);
      assert ReportAgrees(MIXED, 2020, basis, own, MIXED_STATEMENT, k.report);
      FigureDisagrees(MIXED, if basis.Original? then 0 else 4, own, MIXED_STATEMENT);
    }
  }

  lemma MixedCompares()
    ensures FirstIs(MIXED, 2020, Comparative, None, MIXED_STATEMENT, "B")
  {
    var column := ColumnOf(MIXED, |MIXED|, 2020, Comparative, None);
    MixedFigures();
    forall i | i in {5, 8, 11}
      ensures KEY_OF_B in column && MIXED[i].item in column[KEY_OF_B]
    {
      ColumnHolds(MIXED, |MIXED|, i, 2020, Comparative, None);
    }
    forall item | item in column[KEY_OF_B]
      ensures column[KEY_OF_B][item] == Cell(100.0, 1.0)
    {
      CellSource(MIXED, |MIXED|, 2020, Comparative, None, KEY_OF_B, item);
    }
    assert MIXED[5].item == OperateIncome && MIXED[8].item == TotalProfit && MIXED[11].item == ParentNetprofit;
    AtLeastThree(MIXED_STATEMENT.Keys * column[KEY_OF_B].Keys);
    assert Agrees(MIXED_STATEMENT, column[KEY_OF_B]);
    forall k | k in Agreeing(column, MIXED_STATEMENT)
      ensures k == KEY_OF_B
    {
      ColumnSource(MIXED, |MIXED|, 2020, Comparative, None, k);
    }
    assert IsFirst(KEY_OF_B, Agreeing(column, MIXED_STATEMENT));
  }

  lemma MixedReportFails()
    ensures TitlesFixReports(MIXED) && OneValueEach(MIXED) && OneAnnualRow([MIXED_ROW]) && Recognized(MIXED)
    ensures Contradicts(Assigned([MIXED_ROW], MIXED), MIXED[4])
  {
    hide ColumnOf, Agreeing, Close, Contradicts, ValuesOf, MIXED;
    MixedIsCoherent();
    MixedPlaces();
    MixedStatement();
    MixedDisagrees(Original, Some(true));
    MixedDisagrees(Original, Some(false));
    MixedDisagrees(Restated, None);
    MixedCompares();
    MixedRow();
    OfficialContradicts([MIXED_ROW], MIXED, 4);
  }

  lemma MixedRow()
    ensures MIXED_ROW in [MIXED_ROW] && "operate_income" in MIXED_ROW.values
    ensures !Close(MIXED_ROW.values["operate_income"], 500.0, 1.0)
  {}
}
