// Cross-year checking: one year's amounts, as the current column of that year's report and as the
// prior column of the next one. Rows are paired by label, and what is left over by amount.

module CrossYear {
  import opened Common
  import opened Catalog
  import opened Statements

  datatype Verdict =
    | Agree | SignOnly | SuspectTruncated | SuspectUnit | Different
    | OnlyEarlier | OnlyLater | Ambiguous

  datatype CrossItem = CrossItem(
    name: string, occurrence: nat, earlier: Option<real>, later: Option<real>, verdict: Verdict,
    earlierPage: Option<int>, laterPage: Option<int>, byValue: bool, laterName: Option<string>)

  datatype CrossYearError = DifferentStatements

  // How labels are brought to one form, and which count in yuan per share.
  datatype Lexicon = Lexicon(plain: string -> string, perShare: string -> bool)

  const UNIT_FACTORS: seq<real> := [1000.0, 10000.0, 1000000.0]
  const UNIT_SLACK := 0.01
  const MIN_TRUNCATED_DIGITS := 2
  const MIN_VALUE_TO_PAIR := 1000.0

  // ---------------------------------------------------------------- judging two amounts

  function WholePart(value: real): nat {
    Abs(value).Floor
  }

  predicate EndsWith(long: string, short: string) {
    |short| <= |long| && long[|long| - |short|..] == short
  }

  predicate IsTail(short: string, long: string) {
    |short| >= MIN_TRUNCATED_DIGITS && |short| < |long| && EndsWith(long, short)
  }

  predicate NearUnitFactor(ratio: real) {
    exists k :: 0 <= k < |UNIT_FACTORS| && Abs(ratio / UNIT_FACTORS[k] - 1.0) <= UNIT_SLACK
  }

  function Judge(earlier: real, later: real, tolerance: real): Verdict {
    var a, b := Abs(earlier), Abs(later);
    var small, large := if a <= b then a else b, if a <= b then b else a;
    var p, q := Digits(WholePart(earlier)), Digits(WholePart(later));
    var short, long := if |p| <= |q| then p else q, if |p| <= |q| then q else p;
    if Abs(earlier - later) <= tolerance then Agree
    else if Abs(a - b) <= tolerance then SignOnly
    else if IsTail(short, long) then SuspectTruncated
    else if small > 0.0 && NearUnitFactor(large / small) then SuspectUnit
    else Different
  }

  // Which report an amount comes from does not matter, and neither do the signs once they are opposite.
  lemma JudgeIsSymmetric(earlier: real, later: real, tolerance: real)
    ensures Judge(earlier, later, tolerance) == Judge(later, earlier, tolerance)
    ensures Judge(-earlier, -later, tolerance) == Judge(earlier, later, tolerance)
  {
  }

  function Pow10(n: nat): (p: nat)
    ensures p >= 1
  {
    if n == 0 then 1 else 10 * Pow10(n - 1)
  }

  lemma {:induction false} DigitsBound(n: nat)
    ensures n < Pow10(|Digits(n)|)
    ensures n >= 10 ==> n >= Pow10(|Digits(n)| - 1)
  {
    if n >= 10 {
      DigitsBound(n / 10);
    }
  }

  lemma EndsWithLast(p: string, x: char, q: string, y: char)
    requires EndsWith(q + [y], p + [x])
    ensures x == y && EndsWith(q, p)
  {
    var long, short := q + [y], p + [x];
    assert long[|long| - |short|..] == q[|q| - |p|..] + [y];
    assert (q[|q| - |p|..] + [y])[|p|] == y && short[|p|] == x;
    assert (q[|q| - |p|..] + [y])[..|p|] == q[|q| - |p|..] && short[..|p|] == p;
  }

  lemma SameDigit(m: nat, n: nat)
    requires m < 10 && n < 10 && DigitOf(m) == DigitOf(n)
    ensures m == n
  {
  }

  // A suffix of the digits is what is left after dividing by a power of ten.
  lemma {:induction false} TailIsRemainder(a: nat, b: nat)
    requires EndsWith(Digits(b), Digits(a))
    ensures a == b % Pow10(|Digits(a)|)
  {
    DigitsSplit(a);
    DigitsSplit(b);
    EndsWithLast(Leading(a), DigitOf(a % 10), Leading(b), DigitOf(b % 10));
    SameDigit(a % 10, b % 10);
    if a < 10 {
      assert Pow10(1) == 10;
    } else {
      TailIsRemainder(a / 10, b / 10);
      RemainderStep(b, Pow10(|Digits(a / 10)|));
    }
  }

  function Leading(n: nat): string {
    if n < 10 then "" else Digits(n / 10)
  }

  lemma DigitsSplit(n: nat)
    ensures Digits(n) == Leading(n) + [DigitOf(n % 10)]
  {
  }

  lemma RemainderStep(b: nat, m: nat)
    requires m >= 1
    ensures b % (10 * m) == 10 * ((b / 10) % m) + b % 10
  {
    var r := 10 * ((b / 10) % m) + b % 10;
    var k := (b / 10) / m;
    assert b == 10 * (b / 10) + b % 10;
    assert b / 10 == k * m + (b / 10) % m;
    assert b == k * (10 * m) + r;
    assert 0 <= r < 10 * m;
    RemainderUnique(b, 10 * m, k, r);
  }

  lemma RemainderUnique(b: nat, m: nat, k: nat, r: nat)
    requires m >= 1 && b == k * m + r && r < m
    ensures b % m == r
  {
    var d := b / m - k;
    assert d * m == r - b % m by {
      assert b == (b / m) * m + b % m;
    }
    SmallMultiple(d, m);
  }

  lemma SmallMultiple(d: int, m: int)
    requires m >= 1 && -m < d * m < m
    ensures d == 0
  {}

  // Suspected of truncation: one whole part is what another one leaves modulo a power of ten it stays below.
  lemma TruncatedMeans(earlier: real, later: real, tolerance: real)
    requires Judge(earlier, later, tolerance).SuspectTruncated?
    ensures var a, b := WholePart(earlier), WholePart(later);
            exists n: nat :: n >= MIN_TRUNCATED_DIGITS && ((a < Pow10(n) <= b && a == b % Pow10(n))
                                                           || (b < Pow10(n) <= a && b == a % Pow10(n)))
  {
    var a, b := WholePart(earlier), WholePart(later);
    DigitsBound(a);
    DigitsBound(b);
    if |Digits(a)| <= |Digits(b)| {
      TailIsRemainder(a, b);
      LongerIsLarger(b, |Digits(a)|);
    } else {
      TailIsRemainder(b, a);
      LongerIsLarger(a, |Digits(b)|);
    }
  }

  lemma {:induction false} LongerIsLarger(n: nat, k: nat)
    requires 1 <= k < |Digits(n)|
    ensures n >= Pow10(k)
  {
    if k == 1 {
      assert Pow10(1) == 10;
    } else {
      LongerIsLarger(n / 10, k - 1);
    }
  }

  // ---------------------------------------------------------------- rows by label

  datatype Cell = Cell(value: real, page: int)

  datatype Entry = Entry(name: string, value: real, page: int)

  function NameOf(lex: Lexicon, row: ExtractedRow): string {
    if lex.plain(row.name) == "" then UNLABELLED else lex.plain(row.name)
  }

  function InYuan(lex: Lexicon, s: ExtractedStatement, row: ExtractedRow, value: real): real {
    value * if lex.perShare(row.name) then 1.0 else FactorOf(s.unit)
  }

  function CellsOf(m: map<string, seq<Cell>>, name: string): seq<Cell> {
    if name in m then m[name] else []
  }

  function Plus(m: map<string, seq<Cell>>, name: string, cell: Cell): map<string, seq<Cell>> {
    m[name := CellsOf(m, name) + [cell]]
  }

  function Labelled(lex: Lexicon, s: ExtractedStatement, column: Column, n: nat): map<string, seq<Cell>>
    requires n <= |s.rows|
  {
    if n == 0 then map[]
    else
      var row, before := s.rows[n - 1], Labelled(lex, s, column, n - 1);
      var value := Printed(row, column);
      if value.None? then before else Plus(before, NameOf(lex, row), Cell(InYuan(lex, s, row, value.value), row.page))
  }

  // How many of the first n rows give this entry; each must reappear among the items.
  function ValuedRows(lex: Lexicon, s: ExtractedStatement, column: Column, n: nat, e: Entry): nat
    requires n <= |s.rows|
  {
    if n == 0 then 0
    else
      var row := s.rows[n - 1];
      var value := Printed(row, column);
      ValuedRows(lex, s, column, n - 1, e) +
      if value.Some? && e == Entry(if lex.plain(row.name) == "" then UNLABELLED else lex.plain(row.name),
                                   if lex.perShare(row.name) then value.value else FactorOf(s.unit) * value.value,
                                   row.page) then 1 else 0
  }

  lemma LabelledNext(lex: Lexicon, s: ExtractedStatement, column: Column, n: nat)
    requires n < |s.rows|
    ensures Labelled(lex, s, column, n + 1) ==
            if Printed(s.rows[n], column).None? then Labelled(lex, s, column, n)
            else Plus(Labelled(lex, s, column, n), NameOf(lex, s.rows[n]),
                      Cell(InYuan(lex, s, s.rows[n], Printed(s.rows[n], column).value), s.rows[n].page))
  {
  }

  method ByLabel(lex: Lexicon, s: ExtractedStatement, column: Column) returns (found: map<string, seq<Cell>>)
    ensures found == Labelled(lex, s, column, |s.rows|)
  {
    found := map[];
    for n := 0 to |s.rows|
      invariant found == Labelled(lex, s, column, n)
    {
      var row := s.rows[n];
      var value := if column.Current? then row.current else row.prior;
      if value.None? {
        LabelledNext(lex, s, column, n);
        continue;
      }
      var name := lex.plain(row.name);
      if name == "" {
        name := UNLABELLED;
      }
      var factor := if lex.perShare(row.name) then 1.0 else FactorOf(s.unit);
      assert name == NameOf(lex, row) && value.value * factor == InYuan(lex, s, row, value.value);
      LabelledNext(lex, s, column, n);
      found := found[name := (if name in found then found[name] else []) + [Cell(value.value * factor, row.page)]];
    }
  }

  // ---------------------------------------------------------------- items, label by label

  datatype Side = Earlier | Later

  function Alone(side: Side, name: string, n: nat, cell: Cell, verdict: Verdict): CrossItem {
    if side.Earlier? then CrossItem(name, n, Some(cell.value), None, verdict, Some(cell.page), None, false, None)
    else CrossItem(name, n, None, Some(cell.value), verdict, None, Some(cell.page), false, None)
  }

  function AllAlone(side: Side, name: string, cells: seq<Cell>, verdict: Verdict): seq<CrossItem> {
    if cells == [] then []
    else AllAlone(side, name, cells[..|cells| - 1], verdict) + [Alone(side, name, |cells|, cells[|cells| - 1], verdict)]
  }

  function Together(name: string, n: nat, a: Cell, b: Cell, tolerance: real): CrossItem {
    CrossItem(name, n, Some(a.value), Some(b.value), Judge(a.value, b.value, tolerance), Some(a.page), Some(b.page),
              false, None)
  }

  function AllTogether(name: string, mine: seq<Cell>, other: seq<Cell>, tolerance: real): seq<CrossItem>
    requires |mine| == |other|
  {
    if mine == [] then []
    else AllTogether(name, mine[..|mine| - 1], other[..|other| - 1], tolerance)
         + [Together(name, |mine|, mine[|mine| - 1], other[|other| - 1], tolerance)]
  }

  function ForLabel(name: string, mine: seq<Cell>, other: seq<Cell>, tolerance: real): seq<CrossItem> {
    if mine != [] && other != [] && (name == UNLABELLED || |mine| != |other|)
    then AllAlone(Earlier, name, mine, Ambiguous) + AllAlone(Later, name, other, Ambiguous)
    else if other == [] then AllAlone(Earlier, name, mine, OnlyEarlier)
    else if mine == [] then AllAlone(Later, name, other, OnlyLater)
    else AllTogether(name, mine, other, tolerance)
  }

  function ForLabels(names: seq<string>, ours: map<string, seq<Cell>>, theirs: map<string, seq<Cell>>,
      tolerance: real): seq<CrossItem> {
    if names == [] then []
    else
      var name := names[|names| - 1];
      ForLabels(names[..|names| - 1], ours, theirs, tolerance)
      + ForLabel(name, CellsOf(ours, name), CellsOf(theirs, name), tolerance)
  }

  predicate Ascending(names: seq<string>) {
    forall i, j :: 0 <= i < j < |names| ==> Before(names[i], names[j])
  }

  method SortedNames(names: set<string>) returns (sorted: seq<string>)
    ensures Ascending(sorted) && forall name :: name in sorted <==> name in names
  {
    var left := names;
    sorted := [];
    while left != {}
      invariant left <= names && Ascending(sorted)
      invariant forall i, name :: 0 <= i < |sorted| && name in left ==> Before(sorted[i], name)
      invariant forall name :: name in sorted <==> name in names && name !in left
      decreases left
    {
      HasLeast(left);
      var name :| name in left && IsLeast(name, left);
      BeforeIsTotal(name, name);
      sorted, left := sorted + [name], left - {name};
    }
  }

  method ItemsOf(name: string, mine: seq<Cell>, other: seq<Cell>, tolerance: real) returns (items: seq<CrossItem>)
    ensures items == ForLabel(name, mine, other, tolerance)
  {
    var unpairable := name == UNLABELLED || |mine| != |other|;
    items := [];
    if mine != [] && other != [] && unpairable {
      var left := AloneItems(Earlier, name, mine, Ambiguous);
      var right := AloneItems(Later, name, other, Ambiguous);
      return left + right;
    }
    if other == [] {
      items := AloneItems(Earlier, name, mine, OnlyEarlier);
      return;
    }
    if mine == [] {
      items := AloneItems(Later, name, other, OnlyLater);
      return;
    }
    for n := 0 to |mine|
      invariant items == AllTogether(name, mine[..n], other[..n], tolerance)
    {
      assert mine[..n + 1][..n] == mine[..n] && other[..n + 1][..n] == other[..n];
      items := items + [Together(name, n + 1, mine[n], other[n], tolerance)];
    }
    assert mine[..|mine|] == mine && other[..|mine|] == other;
  }

  method AloneItems(side: Side, name: string, cells: seq<Cell>, verdict: Verdict) returns (items: seq<CrossItem>)
    ensures items == AllAlone(side, name, cells, verdict)
  {
    items := [];
    for n := 0 to |cells|
      invariant items == AllAlone(side, name, cells[..n], verdict)
    {
      assert cells[..n + 1][..n] == cells[..n];
      items := items + [Alone(side, name, n + 1, cells[n], verdict)];
    }
    assert cells[..|cells|] == cells;
  }

  // ---------------------------------------------------------------- nothing is lost by label

  // The row of one of the reports that an item stands for.
  function EntryOf(side: Side, item: CrossItem): Option<Entry> {
    if side.Earlier? then
      (if item.earlier.Some? && item.earlierPage.Some?
       then Some(Entry(item.name, item.earlier.value, item.earlierPage.value)) else None)
    else if item.later.Some? && item.laterPage.Some? then
      Some(Entry(if item.laterName.Some? then item.laterName.value
                 else item.name, item.later.value, item.laterPage.value))
    else None
  }

  function Stands(side: Side, item: CrossItem, e: Entry): nat {
    if EntryOf(side, item) == Some(e) then 1 else 0
  }

  // How many items stand for an entry.
  function Standing(side: Side, items: seq<CrossItem>, e: Entry): nat {
    if items == [] then 0 else Standing(side, items[..|items| - 1], e) + Stands(side, items[|items| - 1], e)
  }

  lemma {:induction false} StandingConcat(side: Side, a: seq<CrossItem>, b: seq<CrossItem>, e: Entry)
    ensures Standing(side, a + b, e) == Standing(side, a, e) + Standing(side, b, e)
  {
    if b == [] {
      assert a + b == a;
    } else {
      assert (a + b)[..|a + b| - 1] == a + b[..|b| - 1];
      StandingConcat(side, a, b[..|b| - 1], e);
    }
  }

  lemma StandingSnoc(side: Side, a: seq<CrossItem>, item: CrossItem, e: Entry)
    ensures Standing(side, a + [item], e) == Standing(side, a, e) + Stands(side, item, e)
  {}

  function Tagged(name: string, cells: seq<Cell>, e: Entry): nat {
    if cells == [] then 0
    else Tagged(name, cells[..|cells| - 1], e)
         + if Entry(name, cells[|cells| - 1].value, cells[|cells| - 1].page) == e then 1 else 0
  }

  lemma {:induction false} AloneEntries(side: Side, name: string, cells: seq<Cell>, verdict: Verdict, e: Entry)
    ensures Standing(side, AllAlone(side, name, cells, verdict), e) == Tagged(name, cells, e)
    ensures Standing(if side.Earlier? then Later else Earlier, AllAlone(side, name, cells, verdict), e) == 0
  {
    if cells != [] {
      AloneEntries(side, name, cells[..|cells| - 1], verdict, e);
    }
  }

  lemma {:induction false} TogetherEntries(side: Side, name: string, mine: seq<Cell>, other: seq<Cell>,
      tolerance: real, e: Entry)
    requires |mine| == |other|
    ensures Standing(side, AllTogether(name, mine, other, tolerance), e) ==
            Tagged(name, if side.Earlier? then mine else other, e)
  {
    if mine != [] {
      var k := |mine| - 1;
      TogetherEntries(side, name, mine[..k], other[..k], tolerance, e);
      TogetherSnoc(side, AllTogether(name, mine[..k], other[..k], tolerance), name, |mine|, mine[k], other[k],
                   Judge(mine[k].value, other[k].value, tolerance), e);
    }
  }

  lemma TogetherSnoc(side: Side, items: seq<CrossItem>, name: string, n: nat, a: Cell, b: Cell, verdict: Verdict,
      e: Entry)
    ensures var both :=
              CrossItem(name, n, Some(a.value), Some(b.value), verdict, Some(a.page), Some(b.page), false, None);
            var own := if side.Earlier? then Entry(name, a.value, a.page) else Entry(name, b.value, b.page);
            Standing(side, items + [both], e) == Standing(side, items, e) + if own == e then 1 else 0
  {}

  lemma LabelEntries(name: string, mine: seq<Cell>, other: seq<Cell>, tolerance: real, e: Entry)
    ensures Standing(Earlier, ForLabel(name, mine, other, tolerance), e) == Tagged(name, mine, e)
    ensures Standing(Later, ForLabel(name, mine, other, tolerance), e) == Tagged(name, other, e)
  {
    AloneEntries(Earlier, name, mine, Ambiguous, e);
    AloneEntries(Later, name, other, Ambiguous, e);
    StandingConcat(Earlier, AllAlone(Earlier, name, mine, Ambiguous), AllAlone(Later, name, other, Ambiguous), e);
    StandingConcat(Later, AllAlone(Earlier, name, mine, Ambiguous), AllAlone(Later, name, other, Ambiguous), e);
    AloneEntries(Earlier, name, mine, OnlyEarlier, e);
    AloneEntries(Later, name, other, OnlyLater, e);
    if |mine| == |other| {
      TogetherEntries(Earlier, name, mine, other, tolerance, e);
      TogetherEntries(Later, name, mine, other, tolerance, e);
    }
  }

  function TaggedAll(names: seq<string>, m: map<string, seq<Cell>>, e: Entry): nat {
    if names == [] then 0
    else TaggedAll(names[..|names| - 1], m, e) + Tagged(names[|names| - 1], CellsOf(m, names[|names| - 1]), e)
  }

  lemma {:induction false} LabelsEntries(names: seq<string>, ours: map<string, seq<Cell>>,
      theirs: map<string, seq<Cell>>, tolerance: real, e: Entry)
    ensures Standing(Earlier, ForLabels(names, ours, theirs, tolerance), e) == TaggedAll(names, ours, e)
    ensures Standing(Later, ForLabels(names, ours, theirs, tolerance), e) == TaggedAll(names, theirs, e)
  {
    if names != [] {
      var name, rest := names[|names| - 1], names[..|names| - 1];
      LabelsEntries(rest, ours, theirs, tolerance, e);
      LabelEntries(name, CellsOf(ours, name), CellsOf(theirs, name), tolerance, e);
      StandingConcat(Earlier, ForLabels(rest, ours, theirs, tolerance),
                     ForLabel(name, CellsOf(ours, name), CellsOf(theirs, name), tolerance), e);
      StandingConcat(Later, ForLabels(rest, ours, theirs, tolerance),
                     ForLabel(name, CellsOf(ours, name), CellsOf(theirs, name), tolerance), e);
    }
  }

  lemma OneMoreTagged(name: string, cells: seq<Cell>, cell: Cell, e: Entry)
    ensures Tagged(name, cells + [cell], e) == Tagged(name, cells, e) + if Entry(name, cell.value, cell.page) == e
            then 1 else 0
  {}

  lemma ListedOnce(names: seq<string>)
    requires Ascending(names) && names != []
    ensures names[|names| - 1] !in names[..|names| - 1]
  {
    var name := names[|names| - 1];
    BeforeIsTotal(name, name);
    assert forall i :: 0 <= i < |names| - 1 ==> Before(names[i], name);
  }

  // One more row under a label adds one entry, if the label is listed once.
  lemma {:induction false} OneMoreCell(names: seq<string>, m: map<string, seq<Cell>>, name: string, cell: Cell,
      e: Entry)
    requires Ascending(names)
    ensures TaggedAll(names, Plus(m, name, cell), e) ==
            TaggedAll(names, m, e) + if name in names && Entry(name, cell.value, cell.page) == e then 1 else 0
  {
    if names != [] {
      var last, rest := names[|names| - 1], names[..|names| - 1];
      OneMoreCell(rest, m, name, cell, e);
      ListedOnce(names);
      assert name in names <==> name in rest || name == last;
      if last == name {
        OneMoreTagged(name, CellsOf(m, name), cell, e);
      }
    }
  }

  lemma {:induction false} LabelledIsComplete(lex: Lexicon, s: ExtractedStatement, column: Column, n: nat,
      names: seq<string>, e: Entry)
    requires n <= |s.rows| && Ascending(names)
    requires forall name :: name in Labelled(lex, s, column, n) ==> name in names
    ensures TaggedAll(names, Labelled(lex, s, column, n), e) == ValuedRows(lex, s, column, n, e)
  {
    hide NameOf, InYuan, ValuedRows;
    if n == 0 {
      NoCells(names, e);
      NoRows(lex, s, column, e);
    } else {
      ValuedNext(lex, s, column, n, e);
      var row := s.rows[n - 1];
      var value := Printed(row, column);
      if value.Some? {
        var before, name, cell :=
            Labelled(lex, s, column, n - 1), NameOf(lex, row), Cell(InYuan(lex, s, row, value.value), row.page);
        assert Labelled(lex, s, column, n) == Plus(before, name, cell);
        assert forall other :: other in before ==> other in Plus(before, name, cell);
        OneMoreCell(names, before, name, cell, e);
      }
      LabelledIsComplete(lex, s, column, n - 1, names, e);
    }
  }

  lemma NoRows(lex: Lexicon, s: ExtractedStatement, column: Column, e: Entry)
    ensures ValuedRows(lex, s, column, 0, e) == 0
  {
  }

  lemma ValuedNext(lex: Lexicon, s: ExtractedStatement, column: Column, n: nat, e: Entry)
    requires 0 < n <= |s.rows|
    ensures var row := s.rows[n - 1]; var value := Printed(row, column);
            ValuedRows(lex, s, column, n, e) == ValuedRows(lex, s, column, n - 1, e)
            + if value.Some? && Entry(NameOf(lex, row), InYuan(lex, s, row, value.value), row.page) == e then 1 else 0
  {
  }

  lemma {:induction false} NoCells(names: seq<string>, e: Entry)
    ensures TaggedAll(names, map[], e) == 0
  {
    if names != [] {
      NoCells(names[..|names| - 1], e);
    }
  }
}
