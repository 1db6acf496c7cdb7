/** The single-item comparison of displayComparison (main.js): one row per
    fund for the selected account, preceded by a row of per-column totals;
    and the lookup createGovernmentalYuchuSummaryTable makes into the summed
    surplus statement. */
module Compare {
  import opened Text
  import opened Records
  import opened Config
  import opened Aggregate

  /** One row of the comparison table: its 基金名稱 cell and a cell per
      numeric column. */
  datatype CompareRow = CompareRow(name: string, cells: map<string, Value>)

  const TotalSuffix: string := "合計"

  /** The cell shown for a fund that filed no row for the item. */
  const Missing: Value := Text("-")

  /** `rows.filter(r => r[keyColumn] === itemName)` */
  function RowsFor(rows: seq<Record>, keyColumn: string, itemName: string): (r: seq<Record>)
    ensures forall x :: x in r ==> x in rows && Field(x, keyColumn) == Text(itemName)
    decreases |rows|
  {
    if rows == [] then []
    else
      var last := rows[|rows| - 1];
      RowsFor(rows[..|rows| - 1], keyColumn, itemName) + (if Field(last, keyColumn) == Text(itemName) then [last] else [])
  }

  /** `dataForCompare.find(r => r['基金名稱'] === fund)`, as an index:
      the first row filed by that fund, or |rows|. */
  function FundRow(rows: seq<Record>, fund: string): (i: nat)
    ensures i <= |rows|
    ensures i < |rows| ==> rows[i].fund == FundName(fund)
    ensures forall j :: 0 <= j < i ==> rows[j].fund != FundName(fund)
  {
    FundRowFrom(rows, fund, 0)
  }

  function FundRowFrom(rows: seq<Record>, fund: string, k: nat): (i: nat)
    requires k <= |rows|
    ensures k <= i <= |rows|
    ensures i < |rows| ==> rows[i].fund == FundName(fund)
    ensures forall j :: k <= j < i ==> rows[j].fund != FundName(fund)
    decreases |rows| - k
  {
    if k == |rows| then k
    else if rows[k].fund == FundName(fund) then k
    else FundRowFrom(rows, fund, k + 1)
  }

  /** `fundRow ? fundRow[col] : '-'` */
  function Shown(rows: seq<Record>, fund: string, col: string): Value {
    var i := FundRow(rows, fund);
    if i < |rows| then Field(rows[i], col) else Missing
  }

  /** `parseFloat(String(val).replace(/,/g, '')) || 0`; a number is read as
      itself and `undefined` as the text "undefined". */
  function NumValue(v: Value, parse: NumberReader): real {
    match v
    case Text(s) => parse(StripCommas(s)).GetOr(0.0)
    case Num(n) => n
    case Undefined => parse("undefined").GetOr(0.0)
  }

  /** The reference total of one column: the sum, over the funds in order, of
      the value each fund shows. */
  function FundsTotal(rows: seq<Record>, funds: seq<string>, col: string, parse: NumberReader): real
    decreases |funds|
  {
    if funds == [] then 0.0
    else FundsTotal(rows, funds[..|funds| - 1], col, parse) + NumValue(Shown(rows, funds[|funds| - 1], col), parse)
  }

  /** The row shown for one fund. */
  function FundLine(rows: seq<Record>, fund: string, cols: seq<string>): CompareRow {
    CompareRow(fund, map c | c in cols :: Shown(rows, fund, c))
  }

  /** The per-fund rows, one per fund in order. */
  function FundLines(rows: seq<Record>, funds: seq<string>, cols: seq<string>): (r: seq<CompareRow>)
    ensures |r| == |funds|
    decreases |funds|
  {
    if funds == [] then [] else FundLines(rows, funds[..|funds| - 1], cols) + [FundLine(rows, funds[|funds| - 1], cols)]
  }

  lemma {:induction false} FundLinesAt(rows: seq<Record>, funds: seq<string>, cols: seq<string>, i: nat)
    requires i < |funds|
    ensures FundLines(rows, funds, cols)[i] == FundLine(rows, funds[i], cols)
    decreases |funds|
  {
    if i < |funds| - 1 {
      FundLinesAt(rows, funds[..|funds| - 1], cols, i);
    }
  }

  /** The schema of the selected report key, which the source looks up
      without checking (the selection only offers keys with a schema). */
  function SchemaFor(t: FundType, reportKey: string): ReportSchema
    requires Lookup(ActiveConfig(t), BaseKey(reportKey)).Some?
  {
    Lookup(ActiveConfig(t), BaseKey(reportKey)).value
  }

  /** updateComparisonView's table for the item `itemName` of `reportKey`. */
  method CompareItem(data: map<string, seq<Record>>, fundNames: seq<string>, t: FundType, reportKey: string,
                     itemName: string, parse: NumberReader) returns (table: seq<CompareRow>)
    requires reportKey in data && Lookup(ActiveConfig(t), BaseKey(reportKey)).Some?
    ensures var schema := SchemaFor(t, reportKey);
      var cols := NumericColumns(schema);
      var rows := RowsFor(data[reportKey], schema.keyColumn, itemName);
      && |table| == |fundNames| + 1
      && table[0].name == itemName + TotalSuffix
      && (forall c :: c in table[0].cells <==> c in cols)
      && (forall c :: c in table[0].cells ==> table[0].cells[c] == Num(FundsTotal(rows, fundNames, c, parse)))
      && table[1..] == FundLines(rows, fundNames, cols)
  {
    var config := Lookup(ActiveConfig(t), BaseKey(reportKey)).value;
    SchemaColumns(t, BaseKey(reportKey));
    ColumnsDistinct(t);
    var dataForCompare := RowsFor(data[reportKey], config.keyColumn, itemName);
    table := CompareTable(dataForCompare, fundNames, config.keyColumn, config.columns, itemName, parse);
  }

  /** The table itself, once the item's rows are selected. */
  method CompareTable(dataForCompare: seq<Record>, fundNames: seq<string>, keyColumn: string, columns: seq<string>,
                      itemName: string, parse: NumberReader) returns (table: seq<CompareRow>)
    requires Distinct(columns)
    ensures var cols := FilterOut(columns, keyColumn);
      && |table| == |fundNames| + 1
      && table[0].name == itemName + TotalSuffix
      && (forall c :: c in table[0].cells <==> c in cols)
      && (forall c :: c in table[0].cells ==> table[0].cells[c] == Num(FundsTotal(dataForCompare, fundNames, c, parse)))
      && table[1..] == FundLines(dataForCompare, fundNames, cols)
  {
    var numericHeaders := FilterOut(columns, keyColumn);
    var totals: map<string, real> := map c | c in numericHeaders :: 0.0;
    var lines: seq<CompareRow> := [];
    var i := 0;
    while i < |fundNames|
      invariant i <= |fundNames|
      invariant forall c :: c in totals <==> c in columns && c != keyColumn
      invariant forall c :: c in totals ==> totals[c] == FundsTotal(dataForCompare, fundNames[..i], c, parse)
      invariant lines == FundLines(dataForCompare, fundNames[..i], numericHeaders)
    {
      assert fundNames[..i + 1] == fundNames[..i] + [fundNames[i]];
      var line;
      line, totals := AddFund(dataForCompare, fundNames[i], keyColumn, columns, totals, parse, fundNames[..i]);
      lines := lines + [line];
      i := i + 1;
    }
    assert fundNames[..|fundNames|] == fundNames;
    var totalRow := CompareRow(itemName + TotalSuffix, map c | c in totals :: Num(totals[c]));
    table := [totalRow] + lines;
  }

  lemma FundsTotalSnoc(rows: seq<Record>, funds: seq<string>, fund: string, col: string, parse: NumberReader)
    ensures FundsTotal(rows, funds + [fund], col, parse) == FundsTotal(rows, funds, col, parse) + NumValue(Shown(rows, fund, col), parse)
  {
    assert (funds + [fund])[..|funds|] == funds;
  }

  /** One pass of `fundNames.forEach`: the fund's row, with each shown value
      added into its column's total. */
  method AddFund(dataForCompare: seq<Record>, fund: string, keyColumn: string, columns: seq<string>,
                 totals: map<string, real>, parse: NumberReader, ghost before: seq<string>)
    returns (line: CompareRow, after: map<string, real>)
    requires Distinct(columns)
    requires forall c :: c in totals <==> c in columns && c != keyColumn
    requires forall c :: c in totals ==> totals[c] == FundsTotal(dataForCompare, before, c, parse)
    ensures line == FundLine(dataForCompare, fund, FilterOut(columns, keyColumn))
    ensures forall c :: c in after <==> c in columns && c != keyColumn
    ensures forall c :: c in after ==> after[c] == FundsTotal(dataForCompare, before + [fund], c, parse)
  {
    var fundRow := FundRow(dataForCompare, fund);
    var newRow: map<string, Value> := map[];
    after := totals;
    var j := 0;
    while j < |columns|
      invariant j <= |columns|
      invariant forall c :: c in newRow <==> c in columns[..j] && c != keyColumn
      invariant forall c :: c in newRow ==> newRow[c] == Shown(dataForCompare, fund, c)
      invariant after.Keys == totals.Keys
      invariant forall c :: c in after && c in columns[..j] ==> after[c] == totals[c] + NumValue(Shown(dataForCompare, fund, c), parse)
      invariant forall c :: c in after && c !in columns[..j] ==> after[c] == totals[c]
    {
      var col := columns[j];
      assert columns[..j + 1] == columns[..j] + [col];
      if col != keyColumn {
        var val := if fundRow < |dataForCompare| then Field(dataForCompare[fundRow], col) else Missing;
        assert val == Shown(dataForCompare, fund, col);
        newRow := newRow[col := val];
        var numVal := NumValue(val, parse);
        if col in after {
          DistinctPrefix(columns, j);
          after := after[col := after[col] + numVal];
        }
      }
      j := j + 1;
    }
    assert columns[..|columns|] == columns;
    TotalsAdvance(dataForCompare, before, fund, totals, after, parse);
    line := CompareRow(fund, newRow);
    FundLineFromCells(dataForCompare, fund, FilterOut(columns, keyColumn), newRow);
  }

  /** In a list without repeats, an entry does not occur before its index. */
  lemma DistinctPrefix(cols: seq<string>, j: nat)
    requires Distinct(cols) && j < |cols|
    ensures cols[j] !in cols[..j]
  {
    forall k | 0 <= k < j
      ensures cols[k] != cols[j]
    {
    }
  }

  /** Adding one fund's shown values to every running total. */
  lemma TotalsAdvance(rows: seq<Record>, before: seq<string>, fund: string, totals: map<string, real>,
                      after: map<string, real>, parse: NumberReader)
    requires after.Keys == totals.Keys
    requires forall c :: c in totals ==> totals[c] == FundsTotal(rows, before, c, parse)
    requires forall c :: c in after ==> after[c] == totals[c] + NumValue(Shown(rows, fund, c), parse)
    ensures forall c :: c in after ==> after[c] == FundsTotal(rows, before + [fund], c, parse)
  {
    forall c | c in after
      ensures after[c] == FundsTotal(rows, before + [fund], c, parse)
    {
      FundsTotalSnoc(rows, before, fund, c, parse);
    }
  }

  /** A row whose cells are exactly the fund's shown values is its fund line. */
  lemma FundLineFromCells(rows: seq<Record>, fund: string, cols: seq<string>, cells: map<string, Value>)
    requires forall c :: c in cells <==> c in cols
    requires forall c :: c in cells ==> cells[c] == Shown(rows, fund, c)
    ensures CompareRow(fund, cells) == FundLine(rows, fund, cols)
  {
  }

  /** A fund row is shown for a fund only when one of the item's rows was
      filed under that fund's name: rows that carry another kind of fund
      (the schema object the balance-sheet parsers record, or the
      reclassification target) never match, and every cell shows '-'. */
  lemma ShownWithoutFundRows(rows: seq<Record>, fund: string, cols: seq<string>)
    requires forall j :: 0 <= j < |rows| ==> rows[j].fund != FundName(fund)
    ensures forall c :: c in cols ==> FundLine(rows, fund, cols).cells[c] == Missing
  {
    var i := FundRow(rows, fund);
    assert i == |rows|;
  }

  /** A fund line shows the first row the fund filed: later rows of the same
      fund for the item are ignored, and a fund without a row shows '-'. */
  lemma FundLineMeaning(rows: seq<Record>, fund: string, cols: seq<string>, c: string)
    requires c in cols
    ensures FundLine(rows, fund, cols).name == fund
    ensures (forall j :: 0 <= j < |rows| ==> rows[j].fund != FundName(fund))
      ==> FundLine(rows, fund, cols).cells[c] == Missing
    ensures forall i :: 0 <= i < |rows| && rows[i].fund == FundName(fund)
                        && (forall j :: 0 <= j < i ==> rows[j].fund != FundName(fund))
                        ==> FundLine(rows, fund, cols).cells[c] == Field(rows[i], c)
  {
    var k := FundRow(rows, fund);
  }

  /** The column total adds up the shown value of every fund, so it is the
      sum over the first part of the funds plus the sum over the rest. */
  lemma {:induction false} FundsTotalAppend(rows: seq<Record>, a: seq<string>, b: seq<string>, col: string, parse: NumberReader)
    ensures FundsTotal(rows, a + b, col, parse) == FundsTotal(rows, a, col, parse) + FundsTotal(rows, b, col, parse)
    decreases |b|
  {
    if b == [] {
      assert a + b == a;
    } else {
      var b' := b[..|b| - 1];
      assert a + b == (a + b') + [b[|b| - 1]];
      FundsTotalSnoc(rows, a + b', b[|b| - 1], col, parse);
      FundsTotalAppend(rows, a, b', col, parse);
      FundsTotalSnoc(rows, b', b[|b| - 1], col, parse);
      assert b' + [b[|b| - 1]] == b;
    }
  }

  /** A fund that shows no row for the item adds nothing to any total when
      the reader reads '-' as no number. */
  lemma {:induction false} FundsTotalWithoutRows(rows: seq<Record>, funds: seq<string>, col: string, parse: NumberReader)
    requires parse("-") == None
    requires forall j :: 0 <= j < |rows| ==> !rows[j].fund.FundName?
    ensures FundsTotal(rows, funds, col, parse) == 0.0
    decreases |funds|
  {
    if funds != [] {
      var f := funds[|funds| - 1];
      var i := FundRow(rows, f);
      assert i == |rows|;
      assert StripCommas("-") == "-" by {
        assert "-"[0] != ',';
        assert "-"[1..] == [];
      }
      FundsTotalWithoutRows(rows, funds[..|funds| - 1], col, parse);
    }
  }

  /** The column of the governmental surplus statement's item names. */
  const ItemColumn: string := "項目"

  /** `String(v)`; the text JavaScript writes for a number is the parameter
      `numText`. */
  function ValueText(v: Value, numText: real -> string): string {
    match v
    case Text(s) => s
    case Num(n) => numText(n)
    case Undefined => "undefined"
  }

  /** Whether a row's item, white space removed, is the cleaned item name. */
  predicate ItemMatches(r: Record, cleanItemName: string, numText: real -> string) {
    StripSpace(ValueText(Field(r, ItemColumn), numText)) == cleanItemName
  }

  /** `yuchuData.find(...)`, as an index: the first row whose item matches,
      or |rows|. */
  function ItemRow(rows: seq<Record>, cleanItemName: string, numText: real -> string, k: nat): (i: nat)
    requires k <= |rows|
    ensures k <= i <= |rows|
    ensures i < |rows| ==> ItemMatches(rows[i], cleanItemName, numText)
    ensures forall j :: k <= j < i ==> !ItemMatches(rows[j], cleanItemName, numText)
    decreases |rows| - k
  {
    if k == |rows| then k
    else if ItemMatches(rows[k], cleanItemName, numText) then k
    else ItemRow(rows, cleanItemName, numText, k + 1)
  }

  /** findValue of the surplus summary: the number in column `colName` of the
      first row whose item is `itemName` (white space ignored on both sides),
      read with `Number` after removing commas; 0 when there is no such row,
      when the cell is missing or empty, and when it is not a number. */
  function FindValue(rows: seq<Record>, itemName: string, colName: string,
                     numText: real -> string, toNumber: NumberReader): real
  {
    var i := ItemRow(rows, StripSpace(itemName), numText, 0);
    CellNumber(if i < |rows| then Field(rows[i], colName) else Num(0.0), toNumber)
  }

  /** The number findValue reports for a cell: a missing or empty cell and
      a text that is not a number read as 0. */
  function CellNumber(value: Value, toNumber: NumberReader): real {
    match value
    case Undefined => 0.0
    case Num(n) => n
    case Text(s) => if s == "" then 0.0 else toNumber(StripCommas(s)).GetOr(0.0)
  }

  /** What findValue finds: nothing (0) when no row's item matches, and
      otherwise the value of the first matching row, whatever white space
      either name carries. */
  lemma FindValueMeaning(rows: seq<Record>, itemName: string, colName: string,
                         numText: real -> string, toNumber: NumberReader)
    ensures (forall j :: 0 <= j < |rows| ==> !ItemMatches(rows[j], StripSpace(itemName), numText))
      ==> FindValue(rows, itemName, colName, numText, toNumber) == 0.0
    ensures forall i :: 0 <= i < |rows| && ItemMatches(rows[i], StripSpace(itemName), numText)
                        && (forall j :: 0 <= j < i ==> !ItemMatches(rows[j], StripSpace(itemName), numText))
                        ==> FindValue(rows, itemName, colName, numText, toNumber) == CellNumber(Field(rows[i], colName), toNumber)
  {
    var clean := StripSpace(itemName);
    var k := ItemRow(rows, clean, numText, 0);
    forall i | 0 <= i < |rows| && ItemMatches(rows[i], clean, numText)
                 && (forall j :: 0 <= j < i ==> !ItemMatches(rows[j], clean, numText))
      ensures k == i
    {
      ItemRowFirst(rows, clean, numText, i);
    }
  }

  lemma ItemRowFirst(rows: seq<Record>, clean: string, numText: real -> string, i: nat)
    requires i < |rows| && ItemMatches(rows[i], clean, numText)
    requires forall j :: 0 <= j < i ==> !ItemMatches(rows[j], clean, numText)
    ensures ItemRow(rows, clean, numText, 0) == i
  {
    var k := ItemRow(rows, clean, numText, 0);
    assert !(k < i);
  }

  /** The name is cleaned before the search: names differing only in white
      space find the same value. */
  lemma FindValueIgnoresSpace(rows: seq<Record>, a: string, b: string, colName: string,
                              numText: real -> string, toNumber: NumberReader)
    ensures FindValue(rows, a + " ", colName, numText, toNumber) == FindValue(rows, a, colName, numText, toNumber)
  {
    StripSpaceAppend(a, " ");
    assert StripSpace(" ") == [] by {
      assert IsSpace(" "[0]);
      assert " "[1..] == [];
    }
    assert StripSpace(a) + [] == StripSpace(a);
  }
}
