// The financial catalogue: statement rows, key items, reconciliation rules, and the order in which
// texts are sorted.

module Catalog {
  import opened Common

  datatype Table = BalanceSheet | IncomeStatement | CashFlow

  datatype ReportType = Annual | Interim | FirstQuarter | ThirdQuarter

  datatype Basis = Original | Restated | Comparative | Unverified

  // The items of a report's key figures, used to judge the basis and to check it.
  datatype Item =
    | OperateIncome | TotalProfit | ParentNetprofit | DeductParentNetprofit
    | NetcashOperate | TotalParentEquity | TotalAssets

  function TableOf(item: Item): Table {
    match item
    case NetcashOperate => CashFlow
    case TotalParentEquity => BalanceSheet
    case TotalAssets => BalanceSheet
    case _ => IncomeStatement
  }

  function FieldOf(item: Item): string {
    match item
    case OperateIncome => "operate_income"
    case TotalProfit => "total_profit"
    case ParentNetprofit => "parent_netprofit"
    case DeductParentNetprofit => "deduct_parent_netprofit"
    case NetcashOperate => "netcash_operate"
    case TotalParentEquity => "total_parent_equity"
    case TotalAssets => "total_assets"
  }

  const KEY_ITEMS: seq<Item> := [
    OperateIncome, TotalProfit, ParentNetprofit, DeductParentNetprofit,
    NetcashOperate, TotalParentEquity, TotalAssets]

  const TOLERANCE_YUAN := 1.0

  // A row as it stands: a field without a value is not in the map.
  datatype Row = Row(
    table: Table, date: string, kind: ReportType, year: int, values: map<string, real>,
    basis: Basis, verified: bool, against: Option<string>)

  // One figure of an annual report.
  datatype Figure = Figure(
    year: int, item: Item, value: real, basis: Basis,
    report: string, reportYear: int, disclosed: string, revised: bool, precision: real)

  // ---------------------------------------------------------------- sums that must be zero

  datatype Term = Term(field: string, sign: int, optional: bool)

  datatype Rule = Rule(id: string, table: Table, terms: seq<Term>)

  // The sum of the first n terms; without a value for a required one there is none.
  function PartialSum(terms: seq<Term>, values: map<string, real>, n: nat): Option<real>
    requires n <= |terms|
  {
    if n == 0 then Some(0.0)
    else
      var before := PartialSum(terms, values, n - 1);
      var t := terms[n - 1];
      if before.None? then None
      else if t.field in values then Some(before.value + t.sign as real * values[t.field])
      else if t.optional then before
      else None
  }

  function Residual(rule: Rule, values: map<string, real>): Option<real> {
    PartialSum(rule.terms, values, |rule.terms|)
  }

  lemma {:induction false} NothingAfterMissing(terms: seq<Term>, values: map<string, real>, k: nat, n: nat)
    requires k <= n <= |terms| && PartialSum(terms, values, k).None?
    ensures PartialSum(terms, values, n).None?
  {
    if k < n {
      NothingAfterMissing(terms, values, k, n - 1);
    }
  }

  method ResidualOf(rule: Rule, values: map<string, real>) returns (total: Option<real>)
    ensures total == Residual(rule, values)
  {
    var sum := 0.0;
    for k := 0 to |rule.terms|
      invariant PartialSum(rule.terms, values, k).Some? && PartialSum(rule.terms, values, k).value == sum
    {
      var t := rule.terms[k];
      if t.field in values {
        sum := sum + t.sign as real * values[t.field];
      } else if !t.optional {
        NothingAfterMissing(rule.terms, values, k + 1, |rule.terms|);
        return None;
      }
    }
    total := Some(sum);
  }

  // ---------------------------------------------------------------- the order of texts

  predicate Before(a: string, b: string) {
    |b| > 0 && (|a| == 0 || a[0] < b[0] || (a[0] == b[0] && Before(a[1..], b[1..])))
  }

  lemma {:induction false} BeforeIsTotal(a: string, b: string)
    ensures a == b || Before(a, b) || Before(b, a)
    ensures !(Before(a, b) && Before(b, a)) && (a == b ==> !Before(a, b))
    decreases |a|
  {
    if |a| > 0 && |b| > 0 && a[0] == b[0] {
      BeforeIsTotal(a[1..], b[1..]);
      assert a[1..] == b[1..] ==> a == [a[0]] + a[1..] == [b[0]] + b[1..] == b;
    }
  }

  lemma {:induction false} BeforeIsTransitive(a: string, b: string, c: string)
    requires Before(a, b) && Before(b, c)
    ensures Before(a, c)
    decreases |a|
  {
    if |a| > 0 && a[0] == b[0] == c[0] {
      BeforeIsTransitive(a[1..], b[1..], c[1..]);
    }
  }

  predicate IsLeast(text: string, texts: set<string>) {
    text in texts && forall other :: other in texts ==> other == text || Before(text, other)
  }

  lemma {:induction false} HasLeast(texts: set<string>)
    requires texts != {}
    ensures exists text :: IsLeast(text, texts)
  {
    var some :| some in texts;
    if texts == {some} {
      assert IsLeast(some, texts);
    } else {
      HasLeast(texts - {some});
      var least :| IsLeast(least, texts - {some});
      BeforeIsTotal(some, least);
      forall other | other in texts && Before(some, least) && other != some && other != least
        ensures Before(some, other)
      {
        BeforeIsTransitive(some, least, other);
      }
      assert IsLeast(if Before(some, least) then some else least, texts);
    }
  }
}
