// What is read from the consolidated statements of an annual report, as printed: not yet in yuan.

module Statements {
  import opened Common
  import opened Catalog

  datatype Unit = Yuan | ThousandYuan | TenThousandYuan | MillionYuan

  function FactorOf(unit: Unit): (f: real)
    ensures f >= 1.0
  {
    match unit
    case Yuan => 1.0
    case ThousandYuan => 1000.0
    case TenThousandYuan => 10000.0
    case MillionYuan => 1000000.0
  }

  // Only the first is stated by the statement itself; the others must be checked before use.
  datatype UnitSource = OnStatement | AboveTitle | DeclaredElsewhere

  // A word and its place on the page, in points.
  datatype Word = Word(text: string, x0: real, x1: real, top: real)

  datatype PageWords = PageWords(number: int, words: seq<Word>)

  datatype ExtractedRow = ExtractedRow(page: int, name: string, current: Option<real>, prior: Option<real>)

  datatype ExtractedStatement = ExtractedStatement(
    table: Table, startPage: int, unit: Unit, unitSource: UnitSource, sideBySide: bool,
    rows: seq<ExtractedRow>, columns: map<int, (real, real)>)

  // What a row without a label is listed under.
  const UNLABELLED := "（无标签）"

  datatype Column = Current | Prior

  function Printed(row: ExtractedRow, column: Column): Option<real> {
    if column.Current? then row.current else row.prior
  }

  // A row without numbers, which may be a part of a label broken over several lines.
  predicate TextOnly(row: ExtractedRow) {
    row.current.None? && row.prior.None?
  }
}
