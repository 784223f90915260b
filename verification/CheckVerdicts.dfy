// What the checks of one report say, in numbers: when a unit is confirmed or refused, which sign would
// mend a sum, and when a table is used for figures.

module CheckVerdicts {
  import opened Common
  import opened Catalog
  import opened Statements
  import Labels
  import opened Checks
  import opened StatementFigures

  // ---------------------------------------------------------------- sizes

  // At most ten times apart, or both nothing.
  predicate Alike(ours: real, reference: real) {
    if ours == 0.0 || reference == 0.0 then ours == reference
    else Abs(ours) <= 10.0 * Abs(reference) && Abs(reference) <= 10.0 * Abs(ours)
  }

  // Both something, and at least a hundred times apart.
  predicate Hundredfold(ours: real, reference: real) {
    ours != 0.0 && reference != 0.0
    && (Abs(ours) >= 100.0 * Abs(reference) || Abs(reference) >= 100.0 * Abs(ours))
  }

  lemma SizesMean(ours: real, reference: real)
    ensures MagnitudeOf(ours, reference) == Same <==> Alike(ours, reference)
    ensures MagnitudeOf(ours, reference) == UnitWrong <==> Hundredfold(ours, reference)
  {
    if ours != 0.0 && reference != 0.0 {
      MagnitudeMeans(ours, reference);
    }
  }

  lemma UnitsAre()
    ensures FactorOf(Yuan) == 1.0 && FactorOf(ThousandYuan) == 1000.0
    ensures FactorOf(TenThousandYuan) == 10000.0 && FactorOf(MillionYuan) == 1000000.0
  {
  }

  // ---------------------------------------------------------------- the unit

  // The fields that can be compared, and of those the ones alike and the ones a hundred times apart.
  function Comparable(r: Labels.Resolution, references: map<string, real>, column: Column): set<string> {
    set f | f in references && f in r.lines && Printed(r.lines[f].row, column) != None
  }

  function InYuan(s: ExtractedStatement, r: Labels.Resolution, column: Column, f: string): real
    requires f in r.lines && Printed(r.lines[f].row, column) != None
  {
    Printed(r.lines[f].row, column).value * FactorOf(s.unit)
  }

  function Agreeing(s: ExtractedStatement, r: Labels.Resolution, references: map<string, real>,
      column: Column): set<string> {
    set f | f in Comparable(r, references, column) && Alike(InYuan(s, r, column, f), references[f])
  }

  function FarOff(s: ExtractedStatement, r: Labels.Resolution, references: map<string, real>,
      column: Column): set<string> {
    set f | f in Comparable(r, references, column) && Hundredfold(InYuan(s, r, column, f), references[f])
  }

  // Confirmed if all are alike; mismatched if none is and most are a hundred times apart; undecided in
  // between, and without anything to compare there is no verdict.
  lemma CheckUnitMeans(s: ExtractedStatement, r: Labels.Resolution, references: map<string, real>, column: Column)
    ensures var v := CheckUnit(s, r, references, column).0; var fields := Comparable(r, references, column);
            var alike, far := Agreeing(s, r, references, column), FarOff(s, r, references, column);
            && (v == NoReference <==> fields == {})
            && (v == Confirmed <==> fields != {} && alike == fields)
            && (v == UnitMismatch <==> fields != {} && alike == {} && 2 * |far| > |fields|)
            && (v == Inconsistent <==>
                fields != {} && alike != fields && (alike != {} || 2 * |far| <= |fields|))
  {
    hide Compared, Agreeing, FarOff, Comparable;
    var verdicts, fields := Compared(s, r, references, column), Comparable(r, references, column);
    ComparedMeans(s, r, references, column);
    assert |verdicts| == |fields|;
    assert WrongOnes(verdicts) == FarOff(s, r, references, column);
    var alike := Agreeing(s, r, references, column);
    forall f | f in verdicts
      ensures f in alike <==> verdicts[f] == Same
      ensures f in fields
    {
    }
    assert alike <= fields;
  }

  lemma ComparedMeans(s: ExtractedStatement, r: Labels.Resolution, references: map<string, real>, column: Column)
    ensures var verdicts := Compared(s, r, references, column);
            && verdicts.Keys == Comparable(r, references, column)
            && Agreeing(s, r, references, column) == (set f | f in verdicts && verdicts[f] == Same)
            && FarOff(s, r, references, column) == (set f | f in verdicts && verdicts[f] == UnitWrong)
  {
    hide Alike, Hundredfold, MagnitudeOf;
    var verdicts := Compared(s, r, references, column);
    forall f | f in Comparable(r, references, column)
      ensures f in verdicts
      ensures f in Agreeing(s, r, references, column) <==> verdicts[f] == Same
      ensures f in FarOff(s, r, references, column) <==> verdicts[f] == UnitWrong
    {
      SizesMean(InYuan(s, r, column, f), references[f]);
    }
  }

  // ---------------------------------------------------------------- sums

  // The signs that would mend a sum are those of optional terms that bring it within one unit.
  lemma {:induction false} FlippedMeans(rule: Rule, values: map<string, real>, n: nat, field: string)
    requires n <= |rule.terms|
    ensures field in Flipped(rule, values, n) <==>
            exists k :: 0 <= k < n && rule.terms[k].field == field && rule.terms[k].optional && field in values
                        && Mends(rule, values, field)
  {
    if n > 0 {
      FlippedMeans(rule, values, n - 1, field);
    }
  }

  predicate Mends(rule: Rule, values: map<string, real>, field: string)
    requires field in values
  {
    var turned := Residual(rule, values[field := -values[field]]);
    turned == None || -1.0 <= turned.value <= 1.0
  }

  // The sum of a rule for a table is off by more than one unit.
  predicate Off(rule: Rule, table: Table, values: map<string, real>) {
    rule.table == table && Residual(rule, values) != None
    && !(-1.0 <= Residual(rule, values).value <= 1.0)
  }

  // What is reported: each such rule, with its residual and the signs that would mend it.
  lemma {:induction false} ReportedMeans(rules: seq<Rule>, table: Table, values: map<string, real>, column: Column,
      n: nat, b: Imbalance)
    requires n <= |rules|
    ensures b in Reconciled(rules, table, values, column, n).1 <==>
            exists k :: 0 <= k < n && Off(rules[k], table, values) && b.rule == rules[k].id && b.column == column
                        && b.residual == Residual(rules[k], values).value
                        && b.balancedIfFlipped == Flipped(rules[k], values, |rules[k].terms|)
  {
    if n > 0 {
      ReportedMeans(rules, table, values, column, n - 1, b);
    }
  }

  // ---------------------------------------------------------------- tables and figures

  // Some sum of the table can be taken over a column, and none is off in either.
  predicate AddsUp(rules: seq<Rule>, table: Table, current: map<string, real>, prior: map<string, real>) {
    && (exists k :: 0 <= k < |rules| && rules[k].table == table
                    && (Residual(rules[k], current) != None || Residual(rules[k], prior) != None))
    && forall k :: 0 <= k < |rules| ==> !Off(rules[k], table, current) && !Off(rules[k], table, prior)
  }

  // A table is used exactly if it was extracted, adds up, and its unit is printed on it or confirmed.
  lemma UsedMeans(source: Source, table: Table)
    ensures RefusalOf(source, table) == None <==>
            && table in source.statements
            && var s := source.statements[table]; var r := Resolved(source.lexicons(table), s);
               && AddsUp(source.rules, table, ValuesOf(r, Current), ValuesOf(r, Prior))
               && (s.unitSource == OnStatement || CheckUnit(s, r, Reference(source, table), Current).0 == Confirmed)
    requires table in source.statements ==> source.statements[table].table == table
  {
    hide CheckUnit;
    if table in source.statements {
      var r := Resolved(source.lexicons(table), source.statements[table]);
      AddsUpMeans(source.rules, table, ValuesOf(r, Current), ValuesOf(r, Prior));
    }
  }

  lemma AddsUpMeans(rules: seq<Rule>, table: Table, current: map<string, real>, prior: map<string, real>)
    ensures var a, b := Reconciled(rules, table, current, Current, |rules|),
                        Reconciled(rules, table, prior, Prior, |rules|);
            AddsUp(rules, table, current, prior) <==> a.0 + b.0 != 0 && a.1 + b.1 == []
  {
    BalancedMeans(rules, table, current, Current, |rules|);
    BalancedMeans(rules, table, prior, Prior, |rules|);
    forall k | 0 <= k < |rules|
      ensures Unbalanced(rules[k], table, current) <==> Off(rules[k], table, current)
      ensures Unbalanced(rules[k], table, prior) <==> Off(rules[k], table, prior)
      ensures Applies(rules[k], table, current) <==> rules[k].table == table && Residual(rules[k], current) != None
      ensures Applies(rules[k], table, prior) <==> rules[k].table == table && Residual(rules[k], prior) != None
    {
    }
  }

  // Figures come only with three items or more of the report's own year, and then nothing is refused.
  lemma EnoughItems(source: Source, report: Report)
    ensures var parsed := Outcome(source, report);
            var own := set f | f in Taken(source, report, |TABLES|).figures && f.year == report.year :: f.item;
            && (|own| >= 3 ==> parsed.figures == Taken(source, report, |TABLES|).figures && parsed.refused == [])
            && (|own| < 3 ==> parsed.figures == [] && parsed.firstPage == None)
  {
    assert OwnItems(Taken(source, report, |TABLES|).figures, report.year) ==
           set f | f in Taken(source, report, |TABLES|).figures && f.year == report.year :: f.item;
  }

  // Otherwise each table refused is named, with the first reason.
  lemma {:induction false} RefusalsNamed(source: Source, report: Report, n: nat, table: Table)
    requires n <= |TABLES|
    ensures forall refusal :: (table, refusal) in Taken(source, report, n).refused <==>
              table in TABLES[..n] && RefusalOf(source, table) == Some(refusal)
  {
    hide RefusalOf, TableFigures;
    if n > 0 {
      RefusalsNamed(source, report, n - 1, table);
      assert TABLES[..n] == TABLES[..n - 1] + [TABLES[n - 1]];
    }
  }

  // The page named is the first on which a table that is used starts.
  lemma {:induction false} FirstPageMeans(source: Source, report: Report, n: nat)
    requires n <= |TABLES|
    requires forall table :: table in source.statements ==> source.statements[table].startPage > 0
    ensures var page := Taken(source, report, n).firstPage;
            && (page == None <==> forall k :: 0 <= k < n ==> RefusalOf(source, TABLES[k]) != None)
            && (page != None ==>
                  && page.value > 0
                  && (forall k :: 0 <= k < n && RefusalOf(source, TABLES[k]) == None ==>
                        page.value <= source.statements[TABLES[k]].startPage)
                  && exists k :: 0 <= k < n && RefusalOf(source, TABLES[k]) == None
                                 && page.value == source.statements[TABLES[k]].startPage)
  {
    hide TableFigures, RefusalOf;
    if n > 0 {
      FirstPageMeans(source, report, n - 1);
      UsedIsExtracted(source, TABLES[n - 1]);
    }
  }
}
