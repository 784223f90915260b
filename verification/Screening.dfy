// Screening old periods: before the hard window, a report date on which some sum does not add up is
// dropped from all tables at once; inside the window nothing is touched.

module Screening {
  import opened Common
  import opened Catalog

  datatype Reason = Reason(rule: string, residual: real)

  datatype Note = Note(kind: ReportType, reasons: seq<Reason>)

  datatype Excluded = Excluded(date: string, kind: ReportType, reasons: seq<Reason>)

  datatype Screened = Screened(rows: seq<Row>, first: Option<int>, excluded: seq<Excluded>, hardYears: int)

  datatype ScreenError = HardYearsBelowOne

  predicate Broken(rule: Rule, r: Row) {
    rule.table == r.table && Residual(rule, r.values).Some? && Abs(Residual(rule, r.values).value) > TOLERANCE_YUAN
  }

  function LastYear(rows: seq<Row>): (year: int)
    requires rows != []
    ensures exists i :: 0 <= i < |rows| && rows[i].year == year
    ensures forall i :: 0 <= i < |rows| ==> rows[i].year <= year
  {
    var rest := rows[..|rows| - 1];
    var last := rows[|rows| - 1].year;
    if rest == [] || LastYear(rest) <= last then last else LastYear(rest)
  }

  function Kept(rows: seq<Row>, dropped: set<string>): seq<Row> {
    if rows == [] then []
    else Kept(rows[..|rows| - 1], dropped) + if rows[|rows| - 1].date in dropped then [] else [rows[|rows| - 1]]
  }

  // What is noted of the broken old periods after k rules and n rows of the next one.
  function Noted(rules: seq<Rule>, rows: seq<Row>, first: int, k: nat, n: nat): map<string, Note>
    requires k <= |rules| && n <= |rows| && (n > 0 ==> k < |rules|)
    decreases k, n
  {
    if n > 0 then NotedOne(Noted(rules, rows, first, k, n - 1), rules[k], rows[n - 1], first)
    else if k > 0 then Noted(rules, rows, first, k - 1, |rows|)
    else map[]
  }

  function NotedOne(notes: map<string, Note>, rule: Rule, r: Row, first: int): map<string, Note> {
    if r.year >= first || !Broken(rule, r) then notes
    else
      var before := if r.date in notes then notes[r.date].reasons else [];
      notes[r.date := Note(r.kind, before + [Reason(rule.id, Residual(rule, r.values).value)])]
  }

  function Notes(rules: seq<Rule>, rows: seq<Row>, first: int): map<string, Note> {
    Noted(rules, rows, first, |rules|, 0)
  }

  // The notes are one entry for each date of a broken old row, in the order of the dates.
  predicate Lists(excluded: seq<Excluded>, notes: map<string, Note>) {
    && (forall i, j :: 0 <= i < j < |excluded| ==> Before(excluded[i].date, excluded[j].date))
    && (forall e :: e in excluded ==> e.date in notes && e.kind == notes[e.date].kind
                                      && e.reasons == notes[e.date].reasons)
    && (forall date :: date in notes ==> exists i :: 0 <= i < |excluded| && excluded[i].date == date)
  }

  function FirstHardYear(rows: seq<Row>, hardYears: int): int
    requires rows != []
  {
    LastYear(rows) - hardYears + 1
  }

  method Screen(rules: seq<Rule>, rows: seq<Row>, hardYears: int) returns (r: Result<Screened, ScreenError>)
    ensures r.Err? <==> hardYears < 1
    ensures r.Ok? ==> r.value.hardYears == hardYears && r.value.first == if rows == [] then None
            else Some(FirstHardYear(rows, hardYears))
    ensures r.Ok? ==> r.value.rows == if rows == [] then []
                                      else Kept(rows, Notes(rules, rows, FirstHardYear(rows, hardYears)).Keys)
    ensures r.Ok? ==> Lists(r.value.excluded, if rows == [] then map[]
                                              else Notes(rules, rows, FirstHardYear(rows, hardYears)))
  {
    if hardYears < 1 {
      return Err(HardYearsBelowOne);
    }
    if rows == [] {
      return Ok(Screened([], None, [], hardYears));
    }
    var first := FirstHardYear(rows, hardYears);
    var notes: map<string, Note> := map[];
    for k := 0 to |rules|
      invariant notes == Noted(rules, rows, first, k, 0)
    {
      for n := 0 to |rows|
        invariant notes == Noted(rules, rows, first, k, n)
      {
        var row := rows[n];
        if row.table != rules[k].table || row.year >= first {
          continue;
        }
        var residual := ResidualOf(rules[k], row.values);
        if residual.Some? && Abs(residual.value) > TOLERANCE_YUAN {
          var before := if row.date in notes then notes[row.date].reasons else [];
          notes := notes[row.date := Note(row.kind, before + [Reason(rules[k].id, residual.value)])];
        }
      }
    }
    var kept: seq<Row> := [];
    for n := 0 to |rows|
      invariant kept == Kept(rows[..n], notes.Keys)
    {
      assert rows[..n + 1][..n] == rows[..n];
      if rows[n].date !in notes {
        kept := kept + [rows[n]];
      }
    }
    assert rows[..|rows|] == rows;
    var excluded := Sorted(notes);
    r := Ok(Screened(kept, Some(first), excluded, hardYears));
  }

  method Sorted(notes: map<string, Note>) returns (excluded: seq<Excluded>)
    ensures Lists(excluded, notes)
  {
    var left := notes.Keys;
    excluded := [];
    while left != {}
      invariant left <= notes.Keys
      invariant forall i, j :: 0 <= i < j < |excluded| ==> Before(excluded[i].date, excluded[j].date)
      invariant forall i, date :: 0 <= i < |excluded| && date in left ==> Before(excluded[i].date, date)
      invariant forall i :: 0 <= i < |excluded| ==> excluded[i].date in notes
                                                    && excluded[i] == Excluded(excluded[i].date,
                                                        notes[excluded[i].date].kind, notes[excluded[i].date].reasons)
      invariant forall date :: date in notes
                               && date !in left ==>
                                  exists i :: 0 <= i < |excluded| && excluded[i].date == date
      decreases left
    {
      HasLeast(left);
      var date :| date in left && IsLeast(date, left);
      ghost var before := excluded;
      excluded := excluded + [Excluded(date, notes[date].kind, notes[date].reasons)];
      left := left - {date};
      assert excluded[|before|].date == date;
      assert forall i :: 0 <= i < |before| ==> excluded[i] == before[i];
    }
  }

  // ---------------------------------------------------------------- what screening keeps and drops

  // A period is noted exactly when some old row of that date breaks some rule.
  lemma {:induction false} NotedMeans(rules: seq<Rule>, rows: seq<Row>, first: int, k: nat, n: nat, date: string)
    requires k <= |rules| && n <= |rows| && (n > 0 ==> k < |rules|)
    ensures date in Noted(rules, rows, first, k, n) <==> OldBreak(rules, rows, first, k, n, date)
    ensures date in Noted(rules, rows, first, k, n) ==> Noted(rules, rows, first, k, n)[date].reasons != []
    decreases k, n
  {
    if n > 0 {
      NotedMeans(rules, rows, first, k, n - 1, date);
      if BreaksAt(rules, rows, first, k, n - 1, date) {
        assert OldBreak(rules, rows, first, k, n, date);
      }
    } else if k > 0 {
      NotedMeans(rules, rows, first, k - 1, |rows|, date);
    }
  }

  predicate BreaksAt(rules: seq<Rule>, rows: seq<Row>, first: int, a: nat, b: nat, date: string) {
    a < |rules| && b < |rows| && rows[b].date == date && rows[b].year < first && Broken(rules[a], rows[b])
  }

  ghost predicate OldBreak(rules: seq<Rule>, rows: seq<Row>, first: int, k: nat, n: nat, date: string) {
    exists a: nat, b: nat :: BreaksAt(rules, rows, first, a, b, date) && (a < k || (a == k && b < n))
  }

  // A report date belongs to one year.
  ghost predicate DatesFixYears(rows: seq<Row>) {
    forall r, q {:trigger SameDate(r, q)} :: r in rows && q in rows && SameDate(r, q) ==> r.year == q.year
  }

  predicate SameDate(r: Row, q: Row) {
    r.date == q.date
  }

  function After(rules: seq<Rule>, rows: seq<Row>, hardYears: int): seq<Row> {
    if rows == [] then [] else Kept(rows, Notes(rules, rows, FirstHardYear(rows, hardYears)).Keys)
  }

  lemma {:induction false} KeptMembers(rows: seq<Row>, dropped: set<string>, r: Row)
    ensures r in Kept(rows, dropped) <==> r in rows && r.date !in dropped
  {
    if rows != [] {
      var rest, last := rows[..|rows| - 1], rows[|rows| - 1];
      KeptMembers(rest, dropped, r);
      assert rows == rest + [last];
    }
  }

  lemma DroppedMeans(rules: seq<Rule>, rows: seq<Row>, hardYears: int, r: Row)
    requires r in rows
    ensures r !in After(rules, rows, hardYears) <==>
            exists a: nat, b: nat :: BreaksAt(rules, rows, FirstHardYear(rows, hardYears), a, b, r.date)
  {
    NotedMeans(rules, rows, FirstHardYear(rows, hardYears), |rules|, 0, r.date);
    KeptMembers(rows, Notes(rules, rows, FirstHardYear(rows, hardYears)).Keys, r);
    if a: nat, b: nat :| BreaksAt(rules, rows, FirstHardYear(rows, hardYears), a, b, r.date) {
      assert OldBreak(rules, rows, FirstHardYear(rows, hardYears), |rules|, 0, r.date);
    }
  }

  // No row of the hard window is dropped.
  lemma HardWindowKept(rules: seq<Rule>, rows: seq<Row>, hardYears: int, r: Row)
    requires DatesFixYears(rows) && r in rows && r.year >= FirstHardYear(rows, hardYears)
    ensures r in After(rules, rows, hardYears)
  {
    DroppedMeans(rules, rows, hardYears, r);
    assert forall b :: 0 <= b < |rows| ==> (rows[b].date == r.date <==> SameDate(r, rows[b]));
  }

  // A bad old date goes from all tables at once: either every row of a date stays or none does.
  lemma DatesGoTogether(rules: seq<Rule>, rows: seq<Row>, hardYears: int, r: Row, q: Row)
    requires r in rows && q in rows && r.date == q.date
    ensures r in After(rules, rows, hardYears) <==> q in After(rules, rows, hardYears)
  {
    DroppedMeans(rules, rows, hardYears, r);
    DroppedMeans(rules, rows, hardYears, q);
  }

  // What is still broken afterwards is inside the hard window.
  lemma BrokenOnlyInside(rules: seq<Rule>, rows: seq<Row>, hardYears: int, k: nat, r: Row)
    requires rows != [] && k < |rules| && r in After(rules, rows, hardYears) && Broken(rules[k], r)
    ensures r.year >= FirstHardYear(rows, hardYears)
  {
    var first := FirstHardYear(rows, hardYears);
    KeptMembers(rows, Notes(rules, rows, first).Keys, r);
    var n: nat :| n < |rows| && rows[n] == r;
    if r.year < first {
      assert BreaksAt(rules, rows, first, k, n, r.date);
      DroppedMeans(rules, rows, hardYears, r);
    }
  }

  lemma {:induction false} KeptAll(rows: seq<Row>, dropped: set<string>)
    requires forall i :: 0 <= i < |rows| ==> rows[i].date !in dropped
    ensures Kept(rows, dropped) == rows
  {
    if rows != [] {
      var rest := rows[..|rows| - 1];
      KeptAll(rest, dropped);
      assert rows == rest + [rows[|rows| - 1]];
    }
  }

  lemma SameWindow(rules: seq<Rule>, rows: seq<Row>, hardYears: int)
    requires DatesFixYears(rows) && rows != [] && hardYears >= 1
    ensures After(rules, rows, hardYears) != [] && LastYear(After(rules, rows, hardYears)) == LastYear(rows)
  {
    var once := After(rules, rows, hardYears);
    var i :| 0 <= i < |rows| && rows[i].year == LastYear(rows);
    HardWindowKept(rules, rows, hardYears, rows[i]);
    var j :| 0 <= j < |once| && once[j] == rows[i];
    var k :| 0 <= k < |once| && once[k].year == LastYear(once);
    KeptMembers(rows, Notes(rules, rows, FirstHardYear(rows, hardYears)).Keys, once[k]);
  }

  // Every broken row is of the year first or later.
  ghost predicate BrokenFrom(rules: seq<Rule>, rows: seq<Row>, first: int) {
    forall k, r :: 0 <= k < |rules| && r in rows && Broken(rules[k], r) ==> r.year >= first
  }

  lemma NothingToNote(rules: seq<Rule>, rows: seq<Row>, first: int)
    requires BrokenFrom(rules, rows, first)
    ensures Notes(rules, rows, first) == map[]
  {
    forall date
      ensures date !in Notes(rules, rows, first)
    {
      NotedMeans(rules, rows, first, |rules|, 0, date);
      if a: nat, b: nat :| BreaksAt(rules, rows, first, a, b, date) {
        assert rows[b] in rows;
      }
    }
  }

  lemma NothingDropped(rules: seq<Rule>, rows: seq<Row>, hardYears: int)
    requires rows != [] && BrokenFrom(rules, rows, FirstHardYear(rows, hardYears))
    ensures Notes(rules, rows, FirstHardYear(rows, hardYears)) == map[] && After(rules, rows, hardYears) == rows
  {
    NothingToNote(rules, rows, FirstHardYear(rows, hardYears));
    assert Notes(rules, rows, FirstHardYear(rows, hardYears)).Keys == {};
    KeptAll(rows, {});
  }

  lemma AllBrokenInside(rules: seq<Rule>, rows: seq<Row>, hardYears: int)
    requires rows != []
    ensures BrokenFrom(rules, After(rules, rows, hardYears), FirstHardYear(rows, hardYears))
  {
    forall k, r | 0 <= k < |rules| && r in After(rules, rows, hardYears) && Broken(rules[k], r)
      ensures r.year >= FirstHardYear(rows, hardYears)
    {
      BrokenOnlyInside(rules, rows, hardYears, k, r);
    }
  }

  // Screening what was screened drops nothing more and moves no window.
  lemma ScreenTwice(rules: seq<Rule>, rows: seq<Row>, hardYears: int)
    requires DatesFixYears(rows) && rows != [] && hardYears >= 1
    ensures After(rules, rows, hardYears) != [] && LastYear(After(rules, rows, hardYears)) == LastYear(rows)
    ensures After(rules, After(rules, rows, hardYears), hardYears) == After(rules, rows, hardYears)
    ensures Notes(rules, After(rules, rows, hardYears), FirstHardYear(After(rules, rows, hardYears), hardYears)) ==
            map[]
  {
    SameWindow(rules, rows, hardYears);
    AllBrokenInside(rules, rows, hardYears);
    NothingDropped(rules, After(rules, rows, hardYears), hardYears);
  }

  // Where a date does not fix the year, screening can drop a row of the hard window: exactly when an
  // old row of the same date is broken.
  lemma HardRowDropped(rules: seq<Rule>, rows: seq<Row>, hardYears: int, r: Row)
    requires r in rows && r.year >= FirstHardYear(rows, hardYears)
    ensures r !in After(rules, rows, hardYears) <==>
            exists q, k :: q in rows && 0 <= k < |rules| && q.date == r.date
                           && q.year < FirstHardYear(rows, hardYears) && Broken(rules[k], q)
  {
    DroppedMeans(rules, rows, hardYears, r);
    var first := FirstHardYear(rows, hardYears);
    if q, k :| q in rows && 0 <= k < |rules| && q.date == r.date && q.year < first && Broken(rules[k], q) {
      var n: nat :| n < |rows| && rows[n] == q;
      assert BreaksAt(rules, rows, FirstHardYear(rows, hardYears), k, n, r.date);
    }
  }

  // ---------------------------------------------------------------- the blocking checks

  function Breaks(rule: Rule, rows: seq<Row>, n: nat): seq<Row>
    requires n <= |rows|
  {
    if n == 0 then [] else Breaks(rule, rows, n - 1) + if Broken(rule, rows[n - 1]) then [rows[n - 1]] else []
  }

  predicate Measurable(rule: Rule, r: Row) {
    rule.table == r.table && Residual(rule, r.values).Some?
  }

  // _reconciliation for one rule
  method Reconcile(rule: Rule, rows: seq<Row>) returns (passed: bool, violations: seq<Row>)
    ensures violations == Breaks(rule, rows, |rows|)
    ensures passed <==> violations == [] && exists i :: 0 <= i < |rows| && Measurable(rule, rows[i])
  {
    var checked := 0;
    violations := [];
    for n := 0 to |rows|
      invariant violations == Breaks(rule, rows, n)
      invariant checked > 0 <==> exists i :: 0 <= i < n && Measurable(rule, rows[i])
    {
      if rows[n].table == rule.table {
        var residual := ResidualOf(rule, rows[n].values);
        if residual.Some? {
          checked := checked + 1;
          if Abs(residual.value) > TOLERANCE_YUAN {
            violations := violations + [rows[n]];
          }
        }
      }
    }
    passed := violations == [] && checked > 0;
  }

  lemma {:induction false} BreaksAreBroken(rule: Rule, rows: seq<Row>, n: nat, r: Row)
    requires n <= |rows|
    ensures r in Breaks(rule, rows, n) <==> r in rows[..n] && Broken(rule, r)
  {
    if n > 0 {
      BreaksAreBroken(rule, rows, n - 1, r);
      assert rows[..n] == rows[..n - 1] + [rows[n - 1]];
    }
  }

  // After screening, the blocking sums can flag only years inside the hard window.
  lemma FlagsOnlyHardYears(rules: seq<Rule>, rows: seq<Row>, hardYears: int, k: nat, r: Row)
    requires rows != [] && k < |rules|
             && r in Breaks(rules[k], After(rules, rows, hardYears), |After(rules, rows, hardYears)|)
    ensures r.year >= FirstHardYear(rows, hardYears)
  {
    var once := After(rules, rows, hardYears);
    BreaksAreBroken(rules[k], once, |once|, r);
    assert once[..|once|] == once;
    BrokenOnlyInside(rules, rows, hardYears, k, r);
  }
}
