// The fixed rules behind screening and the basis decision, in numbers: the nine sums, when a report's
// column agrees, which report comes first, and what is noted of a dropped period.

module PeriodRules {
  import opened Common
  import opened Catalog
  import opened BasisDecision
  import Screening

  // ---------------------------------------------------------------- the nine sums

  const RULES: seq<Rule> := [
    Rule("R01", BalanceSheet, [Term("total_assets", 1, false), Term("total_liabilities", -1, false),
                               Term("total_equity", -1, false)]),
    Rule("R02", BalanceSheet, [Term("total_assets", 1, false), Term("total_liab_equity", -1, false)]),
    Rule("R03", BalanceSheet, [Term("total_equity", 1, false), Term("total_parent_equity", -1, false),
                               Term("minority_equity", -1, true)]),
    Rule("R04", BalanceSheet, [Term("total_assets", 1, false), Term("total_current_assets", -1, false),
                               Term("total_noncurrent_assets", -1, false)]),
    Rule("R05", BalanceSheet, [Term("total_liabilities", 1, false), Term("total_current_liab", -1, false),
                               Term("total_noncurrent_liab", -1, false)]),
    Rule("R06", IncomeStatement, [Term("netprofit", 1, false), Term("parent_netprofit", -1, false),
                                  Term("minority_interest", -1, true)]),
    Rule("R07", IncomeStatement, [Term("netprofit", 1, false), Term("total_profit", -1, false),
                                  Term("income_tax", 1, true)]),
    Rule("R08", CashFlow, [Term("cce_add", 1, false), Term("netcash_operate", -1, false),
                           Term("netcash_invest", -1, false), Term("netcash_finance", -1, false),
                           Term("rate_change_effect", -1, true)]),
    Rule("R09", CashFlow, [Term("end_cce", 1, false), Term("begin_cce", -1, false), Term("cce_add", -1, false)])]

  // A field without a value counts as nothing.
  function Of(values: map<string, real>, field: string): real {
    if field in values then values[field] else 0.0
  }

  function Signed(t: Term, values: map<string, real>): real {
    if t.sign == 1 then Of(values, t.field) else if t.sign == -1 then -Of(values, t.field) else 0.0
  }

  // The sum of the signed values, if none that is required is missing.
  lemma {:induction false} ResidualMeans(terms: seq<Term>, values: map<string, real>, n: nat)
    requires n <= |terms| && forall k :: 0 <= k < |terms| ==> terms[k].sign == 1 || terms[k].sign == -1
    ensures PartialSum(terms, values, n) == None <==>
            exists k :: 0 <= k < n && !terms[k].optional && terms[k].field !in values
    ensures PartialSum(terms, values, n) != None && n > 0 ==>
              && PartialSum(terms, values, n - 1) != None
              && PartialSum(terms, values, n).value == PartialSum(terms, values, n - 1).value
                 + Signed(terms[n - 1], values)
    ensures n == 0 ==> PartialSum(terms, values, n) == Some(0.0)
  {
    if n > 0 {
      ResidualMeans(terms, values, n - 1);
    }
  }

  predicate Comes(values: map<string, real>, r: nat, sum: real)
    requires r < |RULES|
  {
    Residual(RULES[r], values) != None ==> Residual(RULES[r], values).value == sum
  }

  // Assets less liabilities and equity, the equity of the owners and of minorities, profit before and
  // after tax, cash at the end and at the beginning: each sum, wherever it can be taken.
  lemma SumsMean(values: map<string, real>)
    ensures Comes(values, 0,
              Of(values, "total_assets") - Of(values, "total_liabilities") - Of(values, "total_equity"))
    ensures Comes(values, 1,
              Of(values, "total_assets") - Of(values, "total_liab_equity"))
    ensures Comes(values, 2,
              Of(values, "total_equity") - Of(values, "total_parent_equity") - Of(values, "minority_equity"))
    ensures Comes(values, 3,
              Of(values, "total_assets") - Of(values, "total_current_assets") - Of(values, "total_noncurrent_assets"))
    ensures Comes(values, 4,
              Of(values, "total_liabilities") - Of(values, "total_current_liab") - Of(values, "total_noncurrent_liab"))
    ensures Comes(values, 5,
              Of(values, "netprofit") - Of(values, "parent_netprofit") - Of(values, "minority_interest"))
    ensures Comes(values, 6,
              Of(values, "netprofit") - Of(values, "total_profit") + Of(values, "income_tax"))
    ensures Comes(values, 7,
              Of(values, "cce_add") - Of(values, "netcash_operate") - Of(values, "netcash_invest")
            - Of(values, "netcash_finance") - Of(values, "rate_change_effect"))
    ensures Comes(values, 8,
              Of(values, "end_cce") - Of(values, "begin_cce") - Of(values, "cce_add"))
  {
    hide PartialSum, Of;
    forall r | r in {0, 2, 3, 4, 5, 6, 8}
      ensures |RULES[r].terms| == 3
    {
    }
    ThreeTerms(RULES[0].terms, values);
    ThreeTerms(RULES[2].terms, values);
    ThreeTerms(RULES[3].terms, values);
    ThreeTerms(RULES[4].terms, values);
    ThreeTerms(RULES[5].terms, values);
    ThreeTerms(RULES[6].terms, values);
    ThreeTerms(RULES[8].terms, values);
    TwoAndFive(values);
  }

  lemma ThreeTerms(terms: seq<Term>, values: map<string, real>)
    requires |terms| == 3 && forall k :: 0 <= k < |terms| ==> terms[k].sign == 1 || terms[k].sign == -1
    ensures PartialSum(terms, values, 3) != None ==>
              PartialSum(terms, values, 3).value ==
              Signed(terms[0], values) + Signed(terms[1], values) + Signed(terms[2], values)
  {
    ResidualMeans(terms, values, 0);
    ResidualMeans(terms, values, 1);
    ResidualMeans(terms, values, 2);
    ResidualMeans(terms, values, 3);
  }

  lemma TwoAndFive(values: map<string, real>)
    ensures Comes(values, 1,
              Of(values, "total_assets") - Of(values, "total_liab_equity"))
    ensures Comes(values, 7,
              Of(values, "cce_add") - Of(values, "netcash_operate") - Of(values, "netcash_invest")
            - Of(values, "netcash_finance") - Of(values, "rate_change_effect"))
  {
    hide PartialSum, Of;
    ResidualMeans(RULES[1].terms, values, 0);
    ResidualMeans(RULES[1].terms, values, 1);
    ResidualMeans(RULES[1].terms, values, 2);
    ResidualMeans(RULES[7].terms, values, 0);
    ResidualMeans(RULES[7].terms, values, 1);
    ResidualMeans(RULES[7].terms, values, 2);
    ResidualMeans(RULES[7].terms, values, 3);
    ResidualMeans(RULES[7].terms, values, 4);
    ResidualMeans(RULES[7].terms, values, 5);
  }

  // ---------------------------------------------------------------- screening

  // The hard window is the last hardYears years up to the latest one there is.
  lemma WindowMeans(rows: seq<Row>, hardYears: int, year: int)
    requires rows != [] && hardYears >= 1
    ensures exists r :: r in rows && r.year >= Screening.FirstHardYear(rows, hardYears)
    ensures year >= Screening.FirstHardYear(rows, hardYears) <==> forall r :: r in rows ==> r.year - year < hardYears
  {
    var last := Screening.LastYear(rows);
    var i :| 0 <= i < |rows| && rows[i].year == last;
    assert rows[i] in rows;
  }

  // A sum breaks when it can be taken over the row and is off by more than one yuan.
  lemma BrokenMeans(rule: Rule, r: Row)
    ensures Screening.Broken(rule, r) <==>
            rule.table == r.table && Residual(rule, r.values) != None
            && !(-1.0 <= Residual(rule, r.values).value <= 1.0)
  {
  }

  // The reasons noted of a dropped date are the rules its old rows break, each with its residual.
  lemma {:induction false} ReasonsMean(rules: seq<Rule>, rows: seq<Row>, first: int, k: nat, n: nat, date: string,
      reason: Screening.Reason)
    requires k <= |rules| && n <= |rows| && (n > 0 ==> k < |rules|)
    ensures (date in Screening.Noted(rules, rows, first, k, n)
             && reason in Screening.Noted(rules, rows, first, k, n)[date].reasons) <==>
            exists a: nat, b: nat ::
              && Screening.BreaksAt(rules, rows, first, a, b, date) && (a < k || (a == k && b < n))
              && reason == Screening.Reason(rules[a].id, Residual(rules[a], rows[b].values).value)
    decreases k, n
  {
    hide Screening.Broken;
    if n > 0 {
      ReasonsMean(rules, rows, first, k, n - 1, date, reason);
      if Screening.BreaksAt(rules, rows, first, k, n - 1, date) {
        assert k < |rules|;
      }
    } else if k > 0 {
      ReasonsMean(rules, rows, first, k - 1, |rows|, date, reason);
    }
  }

  // ---------------------------------------------------------------- the basis

  // The tables of the key items.
  lemma ItemTables(item: Item)
    ensures TableOf(item) == CashFlow <==> item == NetcashOperate
    ensures TableOf(item) == BalanceSheet <==> item in {TotalParentEquity, TotalAssets}
    ensures forall other :: FieldOf(other) == FieldOf(item) ==> other == item
    ensures item in KEY_ITEMS
  {
    match item
    case OperateIncome => assert KEY_ITEMS[0] == item;
    case TotalProfit => assert KEY_ITEMS[1] == item;
    case ParentNetprofit => assert KEY_ITEMS[2] == item;
    case DeductParentNetprofit => assert KEY_ITEMS[3] == item;
    case NetcashOperate => assert KEY_ITEMS[4] == item;
    case TotalParentEquity => assert KEY_ITEMS[5] == item;
    case TotalAssets => assert KEY_ITEMS[6] == item;
  }

  // A column agrees with at least three items in common, each as near as a yuan or the report's precision.
  lemma AgreesMeans(statement: map<Item, real>, official: map<Item, Cell>)
    ensures Agrees(statement, official) <==>
            && |statement.Keys * official.Keys| >= 3
            && forall item :: item in statement && item in official ==>
                 var off := statement[item] - official[item].value;
                 -1.0 <= off <= 1.0 || -official[item].precision <= off <= official[item].precision
  {
  }

  // Of two texts the one that is a beginning of the other, or has the lower character first, comes first.
  lemma {:induction false} BeforeMeans(a: string, b: string)
    ensures Before(a, b) <==> exists n :: Parts(a, b, n)
    decreases |a|
  {
    if |a| > 0 && |b| > 0 && a[0] == b[0] {
      BeforeMeans(a[1..], b[1..]);
      assert a == [a[0]] + a[1..] && b == [b[0]] + b[1..];
      if n :| Parts(a[1..], b[1..], n) {
        assert a[..n + 1] == [a[0]] + a[1..][..n] && b[..n + 1] == [b[0]] + b[1..][..n];
        assert Parts(a, b, n + 1);
      }
      if n :| Parts(a, b, n) {
        assert n > 0;
        assert a[..n] == [a[0]] + a[1..][..n - 1] && b[..n] == [b[0]] + b[1..][..n - 1];
        assert a[..n][1..] == a[1..][..n - 1] && b[..n][1..] == b[1..][..n - 1];
        assert Parts(a[1..], b[1..], n - 1);
      }
    } else if Before(a, b) {
      assert Parts(a, b, 0);
    } else if n :| Parts(a, b, n) {
      if n > 0 {
        FirstAgree(a, b, n);
      }
    }
  }

  lemma FirstAgree(a: string, b: string, n: int)
    requires Parts(a, b, n) && n > 0
    ensures |a| > 0 && |b| > 0 && a[0] == b[0]
  {
    assert a[..n][0] == b[..n][0];
  }

  predicate Parts(a: string, b: string, n: int) {
    0 <= n <= |a| && n < |b| && a[..n] == b[..n] && (n < |a| ==> a[n] < b[n])
  }

  // The report disclosed first, of two on one day the original before its revision, then by title.
  lemma SoonerMeans(a: Key, b: Key)
    ensures Before(a.disclosed, b.disclosed) ==> Sooner(a, b) && !Sooner(b, a)
    ensures a.disclosed == b.disclosed && !a.revised && b.revised ==> Sooner(a, b) && !Sooner(b, a)
    ensures a.disclosed == b.disclosed && a.revised == b.revised ==> (Sooner(a, b) <==> Before(a.report, b.report))
  {
    BeforeIsTotal(a.disclosed, b.disclosed);
  }

  // What the statements say of an item: the field of its table's annual row of the year, the last one
  // that has it.
  lemma {:induction false} LastValueMeans(rows: seq<Row>, n: nat, item: Item, year: int)
    requires n <= |rows|
    ensures LastValue(rows, n, item, year) == None <==> forall i :: 0 <= i < n ==> !Tells(rows[i], item, year)
    ensures LastValue(rows, n, item, year) != None ==>
              exists i :: 0 <= i < n && Tells(rows[i], item, year)
                          && LastValue(rows, n, item, year) == Some(rows[i].values[FieldOf(item)])
                          && forall j :: i < j < n ==> !Tells(rows[j], item, year)
  {
    hide TableOf, FieldOf;
    if n > 0 {
      LastValueMeans(rows, n - 1, item, year);
      if Tells(rows[n - 1], item, year) {
        assert LastValue(rows, n, item, year) == Some(rows[n - 1].values[FieldOf(item)]);
      }
    }
  }

  predicate Tells(r: Row, item: Item, year: int) {
    r.table == TableOf(item) && r.kind == Annual && r.year == year && FieldOf(item) in r.values
  }

  lemma ValuesMean(rows: seq<Row>, year: int, item: Item)
    ensures item in ValuesOf(rows, year) <==> exists r :: r in rows && Tells(r, item, year)
    ensures item in ValuesOf(rows, year) ==> LastValue(rows, |rows|, item, year) == Some(ValuesOf(rows, year)[item])
  {
    ItemTables(item);
    LastValueMeans(rows, |rows|, item, year);
    forall i | 0 <= i < |rows|
      ensures rows[i] in rows
    {
    }
  }
}
