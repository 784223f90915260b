// Whether extracted amounts may be used: sums within one report, and magnitude against references.

module Checks {
  import opened Common
  import opened Catalog
  import opened Statements
  import opened Labels

  const TOLERANCE_UNITS := 1.0
  const SAME_FACTOR := 10.0
  const UNIT_FACTOR := 100.0

  datatype Imbalance = Imbalance(rule: string, column: Column, residual: real, balancedIfFlipped: seq<string>)

  datatype Magnitude = Same | UnitWrong | Unlike

  datatype UnitVerdict = Confirmed | UnitMismatch | Inconsistent | NoReference

  function ValuesOf(r: Resolution, column: Column): map<string, real> {
    map f | f in r.lines && Printed(r.lines[f].row, column).Some? :: Printed(r.lines[f].row, column).value
  }

  // ---------------------------------------------------------------- sums

  // The optional terms whose sign, turned over, makes the sum come out.
  function Flipped(rule: Rule, values: map<string, real>, n: nat): seq<string>
    requires n <= |rule.terms|
  {
    if n == 0 then []
    else
      var t := rule.terms[n - 1];
      Flipped(rule, values, n - 1) + if t.optional && t.field in values && BalancesFlipped(rule, values, t.field)
                                     then [t.field] else []
  }

  predicate BalancesFlipped(rule: Rule, values: map<string, real>, field: string)
    requires field in values
  {
    var turned := Residual(rule, values[field := -values[field]]);
    Abs(if turned.Some? then turned.value else 0.0) <= TOLERANCE_UNITS
  }

  predicate Applies(rule: Rule, table: Table, values: map<string, real>) {
    rule.table == table && Residual(rule, values).Some?
  }

  predicate Unbalanced(rule: Rule, table: Table, values: map<string, real>) {
    Applies(rule, table, values) && Abs(Residual(rule, values).value) > TOLERANCE_UNITS
  }

  function Reconciled(rules: seq<Rule>, table: Table, values: map<string, real>, column: Column,
      n: nat): (int, seq<Imbalance>)
    requires n <= |rules|
  {
    if n == 0 then (0, [])
    else
      var (checked, broken) := Reconciled(rules, table, values, column, n - 1);
      var rule := rules[n - 1];
      if !Applies(rule, table, values) then (checked, broken)
      else (checked + 1,
            if Unbalanced(rule, table, values)
            then broken + [Imbalance(rule.id, column, Residual(rule, values).value,
                                     Flipped(rule, values, |rule.terms|))]
            else broken)
  }

  method ReconcileColumn(rules: seq<Rule>, table: Table, values: map<string, real>, column: Column)
      returns (checked: int, broken: seq<Imbalance>)
    ensures (checked, broken) == Reconciled(rules, table, values, column, |rules|)
  {
    checked, broken := 0, [];
    for n := 0 to |rules|
      invariant (checked, broken) == Reconciled(rules, table, values, column, n)
    {
      var rule := rules[n];
      if rule.table != table {
        continue;
      }
      var residual := ResidualOf(rule, values);
      if residual.None? {
        continue;
      }
      checked := checked + 1;
      if Abs(residual.value) <= TOLERANCE_UNITS {
        continue;
      }
      var flipped: seq<string> := [];
      for k := 0 to |rule.terms|
        invariant flipped == Flipped(rule, values, k)
      {
        if rule.terms[k].optional && rule.terms[k].field in values
           && BalancesFlipped(rule, values, rule.terms[k].field) {
          flipped := flipped + [rule.terms[k].field];
        }
      }
      broken := broken + [Imbalance(rule.id, column, residual.value, flipped)];
    }
  }

  // Both columns of a statement.
  function Balance(rules: seq<Rule>, s: ExtractedStatement, r: Resolution): (int, seq<Imbalance>) {
    var current := Reconciled(rules, s.table, ValuesOf(r, Current), Current, |rules|);
    var prior := Reconciled(rules, s.table, ValuesOf(r, Prior), Prior, |rules|);
    (current.0 + prior.0, current.1 + prior.1)
  }

  method Reconcile(rules: seq<Rule>, s: ExtractedStatement, r: Resolution)
      returns (checked: int, broken: seq<Imbalance>)
    ensures (checked, broken) == Balance(rules, s, r)
  {
    var a, current := ReconcileColumn(rules, s.table, ValuesOf(r, Current), Current);
    var b, prior := ReconcileColumn(rules, s.table, ValuesOf(r, Prior), Prior);
    checked, broken := a + b, current + prior;
  }

  // No imbalance is reported exactly when every rule that applies comes out, and something is checked
  // exactly when some rule applies.
  lemma {:induction false} BalancedMeans(rules: seq<Rule>, table: Table, values: map<string, real>, column: Column,
      n: nat)
    requires n <= |rules|
    ensures var (checked, broken) := Reconciled(rules, table, values, column, n);
            && (broken == [] <==> forall k :: 0 <= k < n ==> !Unbalanced(rules[k], table, values))
            && (checked >= 0 && (checked > 0 <==> exists k :: 0 <= k < n && Applies(rules[k], table, values)))
  {
    if n > 0 {
      BalancedMeans(rules, table, values, column, n - 1);
    }
  }

  // The sums are taken over the amounts as printed, so a wrong unit changes nothing they report.
  lemma UnitErrorStaysBalanced(rules: seq<Rule>, s: ExtractedStatement, r: Resolution, unit: Unit, source: UnitSource)
    ensures Balance(rules, s.(unit := unit, unitSource := source), r) == Balance(rules, s, r)
  {}

  // ---------------------------------------------------------------- magnitude

  function MagnitudeOf(ours: real, reference: real): Magnitude {
    if reference == 0.0 || ours == 0.0 then (if ours == reference then Same else Unlike)
    else
      var plain := Abs(ours / reference);
      var ratio := if plain < 1.0 then 1.0 / plain else plain;
      if ratio <= SAME_FACTOR then Same else if ratio >= UNIT_FACTOR then UnitWrong else Unlike
  }

  // The two amounts are non-zero and at most ten times apart.
  predicate WithinTen(a: real, b: real) {
    a != 0.0 && b != 0.0 && Abs(a) <= 10.0 * Abs(b) && Abs(b) <= 10.0 * Abs(a)
  }

  predicate HundredApart(a: real, b: real) {
    Abs(a) >= 100.0 * Abs(b) || Abs(b) >= 100.0 * Abs(a)
  }

  lemma DivAtMost(x: real, y: real, t: real)
    requires y > 0.0
    ensures x / y <= t <==> x <= t * y
    ensures x / y >= t <==> x >= t * y
  {}

  lemma QuotientOfSizes(a: real, b: real)
    requires a != 0.0 && b != 0.0
    ensures Abs(a) > 0.0 && Abs(b) > 0.0 && Abs(a / b) == Abs(a) / Abs(b)
  {}

  lemma InverseQuotient(x: real, y: real)
    requires x > 0.0 && y > 0.0
    ensures x / y > 0.0 && 1.0 / (x / y) == y / x
  {}

  function Apart(x: real, y: real): real
    requires x > 0.0 && y > 0.0
  {
    if x < y then y / x else x / y
  }

  lemma MagnitudeIsApart(a: real, b: real)
    requires a != 0.0 && b != 0.0
    ensures Abs(a) > 0.0 && Abs(b) > 0.0
    ensures MagnitudeOf(a, b) == if Apart(Abs(a), Abs(b)) <= SAME_FACTOR then Same
                                 else if Apart(Abs(a), Abs(b)) >= UNIT_FACTOR then UnitWrong else Unlike
  {
    QuotientOfSizes(a, b);
    InverseQuotient(Abs(a), Abs(b));
    DivAtMost(Abs(a), Abs(b), 1.0);
  }

  lemma MagnitudeMeans(a: real, b: real)
    requires a != 0.0 && b != 0.0
    ensures MagnitudeOf(a, b).Same? <==> WithinTen(a, b)
    ensures MagnitudeOf(a, b).UnitWrong? <==> HundredApart(a, b)
  {
    MagnitudeIsApart(a, b);
    DivAtMost(Abs(a), Abs(b), SAME_FACTOR);
    DivAtMost(Abs(b), Abs(a), SAME_FACTOR);
    DivAtMost(Abs(a), Abs(b), UNIT_FACTOR);
    DivAtMost(Abs(b), Abs(a), UNIT_FACTOR);
  }

  // ---------------------------------------------------------------- the unit

  function Compared(s: ExtractedStatement, r: Resolution, references: map<string, real>,
      column: Column): map<string, Magnitude> {
    var ours := ValuesOf(r, column);
    map f | f in references && f in ours :: MagnitudeOf(ours[f] * FactorOf(s.unit), references[f])
  }

  function WrongOnes(verdicts: map<string, Magnitude>): set<string> {
    set f | f in verdicts && verdicts[f].UnitWrong?
  }

  function CheckUnit(s: ExtractedStatement, r: Resolution, references: map<string, real>,
      column: Column): (UnitVerdict, map<string, Magnitude>) {
    var verdicts := Compared(s, r, references, column);
    if verdicts == map[] then (NoReference, verdicts)
    else if forall f :: f in verdicts ==> verdicts[f].Same? then (Confirmed, verdicts)
    else if |WrongOnes(verdicts)| * 2 > |verdicts|
            && forall f :: f in verdicts ==>
               !verdicts[f].Same? then (UnitMismatch, verdicts)
    else (Inconsistent, verdicts)
  }

  predicate NearAt(value: real, right: real, reference: real) {
    WithinTen(value * right, reference)
  }

  // What is compared is truly within ten times its reference, were the unit this factor.
  ghost predicate TrulyNear(r: Resolution, references: map<string, real>, column: Column, right: real) {
    forall f :: f in references && f in ValuesOf(r, column) ==> NearAt(ValuesOf(r, column)[f], right, references[f])
  }

  // Two factors at least a thousand times apart.
  predicate FarApart(taken: real, right: real) {
    right > 0.0 && taken > 0.0 && (taken >= 1000.0 * right || right >= 1000.0 * taken)
  }

  lemma ScaledApart(value: real, small: real, large: real)
    requires small > 0.0 && large >= 1000.0 * small
    ensures Abs(value * large) >= 1000.0 * Abs(value * small)
  {}

  // Scaling by a thousand or more, either way, always shows.
  lemma ThousandfoldShows(value: real, right: real, taken: real, reference: real)
    requires FarApart(taken, right) && NearAt(value, right, reference)
    ensures MagnitudeOf(value * taken, reference).UnitWrong?
  {
    if taken >= 1000.0 * right {
      ScaledApart(value, right, taken);
    } else {
      ScaledApart(value, taken, right);
    }
    NotZero(value, right, taken);
    MagnitudeMeans(value * taken, reference);
  }

  lemma NotZero(value: real, a: real, b: real)
    requires value * a != 0.0 && b > 0.0
    ensures value * b != 0.0
  {
  }

  // A unit wrong by a factor of a thousand or more is always found out, if anything can be compared.
  lemma UnitErrorCaught(s: ExtractedStatement, r: Resolution, references: map<string, real>, column: Column,
      right: real)
    requires FarApart(FactorOf(s.unit), right)
    requires TrulyNear(r, references, column, right)
    ensures CheckUnit(s, r, references, column).0 ==
            if Compared(s, r, references, column) == map[] then NoReference else UnitMismatch
  {
    var verdicts := Compared(s, r, references, column);
    var ours := ValuesOf(r, column);
    forall f | f in verdicts
      ensures verdicts[f].UnitWrong?
    {
      ThousandfoldShows(ours[f], right, FactorOf(s.unit), references[f]);
    }
    if verdicts != map[] {
      AllWrong(verdicts);
    }
  }

  lemma AllWrong(verdicts: map<string, Magnitude>)
    requires verdicts != map[] && forall f :: f in verdicts ==> verdicts[f].UnitWrong?
    ensures |WrongOnes(verdicts)| * 2 > |verdicts| && exists f :: f in verdicts && !verdicts[f].Same?
  {
    assert WrongOnes(verdicts) == verdicts.Keys;
    var f :| f in verdicts;
    assert verdicts.Keys != {};
  }

  // A thousand is exactly the threshold: below it some amount within ten times its reference gets by.
  lemma ThresholdIsThousand(k: real)
    requires k > 0.0
    ensures (forall a, b :: WithinTen(a, b) ==> MagnitudeOf(a * k, b).UnitWrong?) <==> FarApart(k, 1.0)
  {
    if FarApart(k, 1.0) {
      forall a, b | WithinTen(a, b)
        ensures MagnitudeOf(a * k, b).UnitWrong?
      {
        assert NearAt(a, 1.0, b);
        ThousandfoldShows(a, 1.0, k, b);
      }
    } else if k >= 1.0 {
      assert WithinTen(1.0, 10.0) && 1.0 * k == k;
      MagnitudeMeans(1.0 * k, 10.0);
    } else {
      assert WithinTen(10.0, 1.0) && 10.0 * k > 0.0;
      MagnitudeMeans(10.0 * k, 1.0);
    }
  }

  // Not every confusion of two units differs that much: two pairs of neighbours do not.
  lemma WhichUnitsAreCaught(printed: Unit, taken: Unit)
    ensures FarApart(FactorOf(taken), FactorOf(printed)) <==>
            printed != taken && {printed, taken} != {ThousandYuan, TenThousandYuan}
            && {printed, taken} != {TenThousandYuan, MillionYuan}
  {}

  // Amounts printed in thousands and taken for ten thousands are confirmed, if the references are exact.
  lemma TenfoldErrorConfirmed(s: ExtractedStatement, r: Resolution, references: map<string, real>, column: Column)
    requires s.unit.TenThousandYuan? && Compared(s, r, references, column) != map[]
    requires forall f :: f in references && f in ValuesOf(r, column) ==>
             references[f] != 0.0 && ValuesOf(r, column)[f] * FactorOf(ThousandYuan) == references[f]
    ensures CheckUnit(s, r, references, column).0.Confirmed?
  {
    var verdicts := Compared(s, r, references, column);
    forall f | f in verdicts
      ensures verdicts[f].Same?
    {
      var value := ValuesOf(r, column)[f];
      assert value * 10000.0 == 10.0 * references[f];
      MagnitudeMeans(value * 10000.0, references[f]);
    }
  }
}
