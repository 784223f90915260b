// Which basis a year's statements are on: as first disclosed, as restated later, or not known. Judged
// only by comparison with the figures printed in annual reports.

module BasisDecision {
  import opened Common
  import opened Catalog

  const MIN_ITEMS := 3

  datatype Cell = Cell(value: real, precision: real)

  // A report in the order the candidates are tried: disclosed earlier first, a revision after its original.
  datatype Key = Key(disclosed: string, revised: bool, report: string)

  type Column = map<Key, map<Item, Cell>>

  datatype Decision = Decision(basis: Basis, against: Option<string>)

  function KeyOf(f: Figure): Key {
    Key(f.disclosed, f.revised, f.report)
  }

  predicate Sooner(a: Key, b: Key) {
    || Before(a.disclosed, b.disclosed)
    || (a.disclosed == b.disclosed && !a.revised && b.revised)
    || (a.disclosed == b.disclosed && a.revised == b.revised && Before(a.report, b.report))
  }

  lemma SoonerIsTotal(a: Key, b: Key)
    ensures a == b || Sooner(a, b) || Sooner(b, a)
    ensures !(Sooner(a, b) && Sooner(b, a))
  {
    BeforeIsTotal(a.disclosed, b.disclosed);
    BeforeIsTotal(a.report, b.report);
  }

  lemma SoonerIsTransitive(a: Key, b: Key, c: Key)
    requires Sooner(a, b) && Sooner(b, c)
    ensures Sooner(a, c)
  {
    if Before(a.disclosed, b.disclosed) && Before(b.disclosed, c.disclosed) {
      BeforeIsTransitive(a.disclosed, b.disclosed, c.disclosed);
    }
    if Before(a.report, b.report) && Before(b.report, c.report) {
      BeforeIsTransitive(a.report, b.report, c.report);
    }
  }

  predicate IsFirst(k: Key, keys: set<Key>) {
    k in keys && forall other :: other in keys ==> other == k || Sooner(k, other)
  }

  lemma {:induction false} HasFirst(keys: set<Key>)
    requires keys != {}
    ensures exists k :: IsFirst(k, keys)
  {
    var some :| some in keys;
    if keys == {some} {
      assert IsFirst(some, keys);
    } else {
      var rest := keys - {some};
      HasFirst(rest);
      var least :| IsFirst(least, rest);
      SoonerIsTotal(some, least);
      forall other | other in rest && Sooner(some, least) && other != least
        ensures Sooner(some, other)
      {
        SoonerIsTransitive(some, least, other);
      }
      assert IsFirst(if Sooner(some, least) then some else least, keys);
    }
  }

  // ---------------------------------------------------------------- what a year's statements say

  // The value of a field in the last of the first n rows that are the year's annual row and have it.
  function LastValue(rows: seq<Row>, n: nat, item: Item, year: int): Option<real>
    requires n <= |rows|
  {
    if n == 0 then None
    else
      var r := rows[n - 1];
      if r.table == TableOf(item) && r.kind.Annual? && r.year == year && FieldOf(item) in r.values
      then Some(r.values[FieldOf(item)])
      else LastValue(rows, n - 1, item, year)
  }

  function ValuesOf(rows: seq<Row>, year: int): map<Item, real> {
    map item | item in KEY_ITEMS
    && LastValue(rows, |rows|, item, year).Some? :: LastValue(rows, |rows|, item, year).value
  }

  // All comparable items must agree, and there must be enough of them to tell.
  function Agreement(statement: map<Item, real>, official: map<Item, Cell>): Option<bool> {
    var common := statement.Keys * official.Keys;
    if |common| < MIN_ITEMS then None
    else Some(forall k :: k in common ==> Close(statement[k], official[k].value, official[k].precision))
  }

  predicate Close(a: real, b: real, precision: real) {
    Abs(a - b) <= MaxReal(TOLERANCE_YUAN, precision)
  }

  predicate Agrees(statement: map<Item, real>, official: map<Item, Cell>) {
    Agreement(statement, official) == Some(true)
  }

  // ---------------------------------------------------------------- the columns of the reports

  predicate Selected(f: Figure, year: int, basis: Basis, own: Option<bool>) {
    f.year == year && f.basis == basis && (own.None? || own.value == (f.reportYear == year))
  }

  function Added(column: Column, f: Figure): Column {
    column[KeyOf(f) := (if KeyOf(f) in column then column[KeyOf(f)] else map[])[f.item := Cell(f.value, f.precision)]]
  }

  function ColumnOf(figures: seq<Figure>, n: nat, year: int, basis: Basis, own: Option<bool>): Column
    requires n <= |figures|
  {
    if n == 0 then map[]
    else if !Selected(figures[n - 1], year, basis, own) then ColumnOf(figures, n - 1, year, basis, own)
    else Added(ColumnOf(figures, n - 1, year, basis, own), figures[n - 1])
  }

  function Agreeing(column: Column, statement: map<Item, real>): set<Key> {
    set k | k in column && Agrees(statement, column[k])
  }

  ghost function FirstAgreeing(column: Column, statement: map<Item, real>): (r: Option<Key>)
    ensures r.None? <==> Agreeing(column, statement) == {}
    ensures r.Some? ==> IsFirst(r.value, Agreeing(column, statement))
  {
    if Agreeing(column, statement) == {} then None
    else
      HasFirst(Agreeing(column, statement));
      var k :| IsFirst(k, Agreeing(column, statement));
      Some(k)
  }

  ghost function Decided(year: int, statement: map<Item, real>, figures: seq<Figure>): Decision {
    var own := ColumnOf(figures, |figures|, year, Original, Some(true));
    var later := ColumnOf(figures, |figures|, year, Original, Some(false));
    var restated := FirstAgreeing(ColumnOf(figures, |figures|, year, Restated, None), statement);
    var compared := FirstAgreeing(ColumnOf(figures, |figures|, year, Comparative, None), statement);
    if FirstAgreeing(own, statement).Some? then Decision(Original, Some(FirstAgreeing(own, statement).value.report))
    else if FirstAgreeing(later, statement).Some?
         then Decision(Original, Some(FirstAgreeing(later, statement).value.report))
    else if restated.Some? then Decision(Restated, Some(restated.value.report))
    else if (own != map[] || later != map[]) && compared.Some? then Decision(Restated, Some(compared.value.report))
    else Decision(Unverified, None)
  }

  method Grouped(figures: seq<Figure>, year: int, basis: Basis, own: Option<bool>) returns (column: Column)
    ensures column == ColumnOf(figures, |figures|, year, basis, own)
  {
    column := map[];
    for n := 0 to |figures|
      invariant column == ColumnOf(figures, n, year, basis, own)
    {
      var f := figures[n];
      if f.year != year || f.basis != basis {
        continue;
      }
      if own.Some? && (f.reportYear == year) != own.value {
        continue;
      }
      var cells := if KeyOf(f) in column then column[KeyOf(f)] else map[];
      column := column[KeyOf(f) := cells[f.item := Cell(f.value, f.precision)]];
    }
  }

  lemma FirstOfLeft(column: Column, statement: map<Item, real>, left: set<Key>, k: Key)
    requires Agreeing(column, statement) <= left && IsFirst(k, left) && k in Agreeing(column, statement)
    ensures FirstAgreeing(column, statement) == Some(k)
  {
    SoonerIsTotal(k, FirstAgreeing(column, statement).value);
  }

  // Tries the reports in order.
  method Try(column: Column, statement: map<Item, real>) returns (found: Option<Key>)
    ensures found == FirstAgreeing(column, statement)
  {
    var left := column.Keys;
    while left != {}
      invariant left <= column.Keys && Agreeing(column, statement) <= left
      decreases left
    {
      HasFirst(left);
      var k :| k in left && IsFirst(k, left);
      if Agrees(statement, column[k]) {
        FirstOfLeft(column, statement, left, k);
        return Some(k);
      }
      left := left - {k};
    }
    found := None;
  }

  method Decide(year: int, statement: map<Item, real>, figures: seq<Figure>) returns (d: Decision)
    ensures d == Decided(year, statement, figures)
  {
    var own := Grouped(figures, year, Original, Some(true));
    var found := Try(own, statement);
    if found.Some? {
      return Decision(Original, Some(found.value.report));
    }
    var later := Grouped(figures, year, Original, Some(false));
    found := Try(later, statement);
    if found.Some? {
      return Decision(Original, Some(found.value.report));
    }
    var restated := Grouped(figures, year, Restated, None);
    found := Try(restated, statement);
    if found.Some? {
      return Decision(Restated, Some(found.value.report));
    }
    if own != map[] || later != map[] {
      var compared := Grouped(figures, year, Comparative, None);
      found := Try(compared, statement);
      if found.Some? {
        return Decision(Restated, Some(found.value.report));
      }
    }
    d := Decision(Unverified, None);
  }

  method Values(rows: seq<Row>, year: int) returns (found: map<Item, real>)
    ensures found == ValuesOf(rows, year)
  {
    hide FieldOf, TableOf;
    found := map[];
    for k := 0 to |KEY_ITEMS|
      invariant found == map item | item in KEY_ITEMS[..k]
                && LastValue(rows, |rows|, item, year).Some? :: LastValue(rows, |rows|, item, year).value
    {
      var item := KEY_ITEMS[k];
      ghost var before := found;
      for n := 0 to |rows|
        invariant found == if LastValue(rows, n, item, year).Some?
                           then before[item := LastValue(rows, n, item, year).value] else before
      {
        var r := rows[n];
        if r.table == TableOf(item) && r.kind.Annual? && r.year == year && FieldOf(item) in r.values {
          found := found[item := r.values[FieldOf(item)]];
        }
      }
      assert KEY_ITEMS[..k + 1] == KEY_ITEMS[..k] + [item];
    }
    assert KEY_ITEMS[..|KEY_ITEMS|] == KEY_ITEMS;
  }

  // ---------------------------------------------------------------- writing it on the rows

  ghost function DecisionFor(rows: seq<Row>, figures: seq<Figure>, year: int): Decision {
    Decided(year, ValuesOf(rows, year), figures)
  }

  ghost function Marked(rows: seq<Row>, figures: seq<Figure>, r: Row): Row {
    if !r.kind.Annual? then r
    else
      var d := DecisionFor(rows, figures, r.year);
      r.(basis := d.basis, verified := !d.basis.Unverified?, against := d.against)
  }

  ghost function Assigned(rows: seq<Row>, figures: seq<Figure>): (after: seq<Row>)
    ensures |after| == |rows|
    ensures forall i :: 0 <= i < |rows| ==> after[i] == Marked(rows, figures, rows[i])
  {
    seq(|rows|, i requires 0 <= i < |rows| => Marked(rows, figures, rows[i]))
  }

  lemma AnnualMarked(rows: seq<Row>, figures: seq<Figure>, i: nat, d: Decision)
    requires i < |rows| && rows[i].kind.Annual? && d == DecisionFor(rows, figures, rows[i].year)
    ensures Assigned(rows, figures)[i] ==
            rows[i].(basis := d.basis, verified := !d.basis.Unverified?, against := d.against)
  {}

  lemma OthersUnmarked(rows: seq<Row>, figures: seq<Figure>, i: nat)
    requires i < |rows| && !rows[i].kind.Annual?
    ensures Assigned(rows, figures)[i] == rows[i]
  {}

  class StatementRow {
    const table: Table
    const date: string
    const kind: ReportType
    const year: int
    const values: map<string, real>
    var basis: Basis
    var verified: bool
    var against: Option<string>

    constructor (table: Table, date: string, kind: ReportType, year: int, values: map<string, real>)
      ensures Value() == Row(table, date, kind, year, values, Unverified, false, None)
    {
      this.table, this.date, this.kind, this.year, this.values := table, date, kind, year, values;
      basis, verified, against := Unverified, false, None;
    }

    method Mark(d: Decision)
      modifies this
      ensures Value() == old(Value()).(basis := d.basis, verified := !d.basis.Unverified?, against := d.against)
    {
      basis, verified, against := d.basis, !d.basis.Unverified?, d.against;
    }

    function Value(): Row
      reads this
    {
      Row(table, date, kind, year, values, basis, verified, against)
    }
  }

  function Snapshot(rows: seq<StatementRow>): (s: seq<Row>)
    reads rows
    ensures |s| == |rows| && forall i :: 0 <= i < |rows| ==> s[i] == rows[i].Value()
  {
    seq(|rows|, i requires 0 <= i < |rows| reads rows => rows[i].Value())
  }

  method DecideYears(rows: seq<Row>, figures: seq<Figure>) returns (decided: map<int, Decision>)
    ensures decided.Keys == set r | r in rows && r.kind.Annual? :: r.year
    ensures forall year :: year in decided ==> decided[year] == DecisionFor(rows, figures, year)
  {
    var years := set r | r in rows && r.kind.Annual? :: r.year;
    var todo := years;
    decided := map[];
    while todo != {}
      invariant todo !! decided.Keys && todo + decided.Keys == years
      invariant forall year :: year in decided ==> decided[year] == DecisionFor(rows, figures, year)
      decreases todo
    {
      var year :| year in todo;
      var statement := Values(rows, year);
      var d := Decide(year, statement, figures);
      assert d == DecisionFor(rows, figures, year);
      decided := decided[year := d];
      todo := todo - {year};
    }
  }

  // assign_basis: marks every annual row with its year's decision and touches no other row.
  method AssignBasis(rows: seq<StatementRow>, figures: seq<Figure>) returns (decided: map<int, Decision>)
    modifies rows
    ensures Snapshot(rows) == Assigned(old(Snapshot(rows)), figures)
    ensures decided.Keys == set r | r in old(Snapshot(rows)) && r.kind.Annual? :: r.year
    ensures forall year :: year in decided ==> decided[year] == DecisionFor(old(Snapshot(rows)), figures, year)
  {
    hide DecisionFor, Marked, Assigned;
    var before := Snapshot(rows);
    decided := DecideYears(before, figures);
    ghost var after := Assigned(before, figures);
    for i := 0 to |rows|
      invariant forall j :: 0 <= j < |rows| ==> rows[j].Value() == before[j] || rows[j].Value() == after[j]
      invariant forall j :: 0 <= j < i ==> rows[j].Value() == after[j]
    {
      var row := rows[i];
      if row.kind.Annual? {
        assert before[i] in before;
        var d := decided[row.year];
        AnnualMarked(before, figures, i, d);
        row.Mark(d);
        assert row.Value() == after[i];
      } else {
        OthersUnmarked(before, figures, i);
      }
    }
  }
}
