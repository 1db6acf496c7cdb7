/** The statement parsers of parsers.js and the dispatch of processFile. Each
    parser is a loop that pushes one record per kept row; each is proved
    equal to a function over the rows it keeps, and the lemmas say what those
    functions promise. */
module Parsers {
  import opened Text
  import opened Records
  import opened Config
  import opened Utils

  // ------------------------------------------------------------- kept rows

  /** `String(row[keyIdx] || '').trim()` */
  function KeyText(data: seq<seq<string>>, i: nat, keyIdx: nat): string
    requires i < |data|
  {
    Trim(CellText(data[i], keyIdx))
  }

  /** Whether a parser turns row `i` into a record: the row is non-empty and
      its trimmed key is non-empty and does not start with 註 (nor, for the
      fixed layouts, with 附註). */
  predicate Kept(data: seq<seq<string>>, i: nat, keyIdx: nat, skipAnnex: bool) {
    && i < |data|
    && |data[i]| > 0
    && KeyText(data, i, keyIdx) != ""
    && !StartsWith(KeyText(data, i, keyIdx), "註")
    && !(skipAnnex && StartsWith(KeyText(data, i, keyIdx), "附註"))
  }

  /** The kept rows with index in [lo, hi), in row order. */
  function KeptRows(data: seq<seq<string>>, lo: nat, hi: nat, keyIdx: nat, skipAnnex: bool): (k: seq<nat>)
    ensures forall j :: 0 <= j < |k| ==> lo <= k[j] < hi && k[j] < |data|
    decreases hi
  {
    if hi <= lo then []
    else KeptRows(data, lo, hi - 1, keyIdx, skipAnnex) + (if Kept(data, hi - 1, keyIdx, skipAnnex) then [hi - 1] else [])
  }

  lemma {:induction false} KeptRowsAreKept(data: seq<seq<string>>, lo: nat, hi: nat, keyIdx: nat, skipAnnex: bool)
    ensures forall j :: 0 <= j < |KeptRows(data, lo, hi, keyIdx, skipAnnex)| ==>
      Kept(data, KeptRows(data, lo, hi, keyIdx, skipAnnex)[j], keyIdx, skipAnnex)
    decreases hi
  {
    if hi > lo {
      KeptRowsAreKept(data, lo, hi - 1, keyIdx, skipAnnex);
      var k0 := KeptRows(data, lo, hi - 1, keyIdx, skipAnnex);
      var k := KeptRows(data, lo, hi, keyIdx, skipAnnex);
      assert k == k0 + (if Kept(data, hi - 1, keyIdx, skipAnnex) then [hi - 1] else []);
      forall j | 0 <= j < |k|
        ensures Kept(data, k[j], keyIdx, skipAnnex)
      {
        if j < |k0| {
          assert k[j] == k0[j] && Kept(data, k0[j], keyIdx, skipAnnex);
        } else {
          assert k[j] == hi - 1 && Kept(data, hi - 1, keyIdx, skipAnnex);
        }
      }
    }
  }

  lemma {:induction false} KeptRowsIncreasing(data: seq<seq<string>>, lo: nat, hi: nat, keyIdx: nat, skipAnnex: bool)
    ensures forall a, b :: 0 <= a < b < |KeptRows(data, lo, hi, keyIdx, skipAnnex)| ==>
      KeptRows(data, lo, hi, keyIdx, skipAnnex)[a] < KeptRows(data, lo, hi, keyIdx, skipAnnex)[b]
    decreases hi
  {
    if hi > lo {
      KeptRowsIncreasing(data, lo, hi - 1, keyIdx, skipAnnex);
      var k0 := KeptRows(data, lo, hi - 1, keyIdx, skipAnnex);
      var k := KeptRows(data, lo, hi, keyIdx, skipAnnex);
      assert k == k0 + (if Kept(data, hi - 1, keyIdx, skipAnnex) then [hi - 1] else []);
      assert forall j :: 0 <= j < |k0| ==> k[j] == k0[j];
    }
  }

  lemma {:induction false} KeptRowsComplete(data: seq<seq<string>>, lo: nat, hi: nat, keyIdx: nat, skipAnnex: bool)
    ensures forall i :: lo <= i < hi && Kept(data, i, keyIdx, skipAnnex) ==> i in KeptRows(data, lo, hi, keyIdx, skipAnnex)
    decreases hi
  {
    if hi > lo {
      KeptRowsComplete(data, lo, hi - 1, keyIdx, skipAnnex);
    }
  }

  /** One index per kept row of [lo, hi), each kept, strictly increasing. */
  lemma KeptRowsExact(data: seq<seq<string>>, lo: nat, hi: nat, keyIdx: nat, skipAnnex: bool)
    ensures var k := KeptRows(data, lo, hi, keyIdx, skipAnnex);
      && (forall j :: 0 <= j < |k| ==> Kept(data, k[j], keyIdx, skipAnnex))
      && (forall a, b :: 0 <= a < b < |k| ==> k[a] < k[b])
      && (forall i :: lo <= i < hi && Kept(data, i, keyIdx, skipAnnex) ==> i in k)
  {
    KeptRowsAreKept(data, lo, hi, keyIdx, skipAnnex);
    KeptRowsIncreasing(data, lo, hi, keyIdx, skipAnnex);
    KeptRowsComplete(data, lo, hi, keyIdx, skipAnnex);
  }

  /** Whether a note row (one starting with 附註) is skipped: the fixed
      layouts skip it, the header-driven parsers keep it. */
  lemma AnnexPolicy(data: seq<seq<string>>, i: nat, keyIdx: nat)
    requires i < |data| && |data[i]| > 0 && StartsWith(KeyText(data, i, keyIdx), "附註")
    ensures !Kept(data, i, keyIdx, true)
    ensures Kept(data, i, keyIdx, false)
  {
    var t := KeyText(data, i, keyIdx);
    assert t[0] == '附';
  }

  // ------------------------------------------------------------ _parseFixed

  /** A fixed layout: the first data row and the column-name to index table. */
  datatype FixedLayout = FixedLayout(startRow: nat, colMap: map<string, nat>)

  /** The record `_parseFixed` builds for row `i`: every configured column,
      the raw cell where the layout places one and '' where it does not. */
  function FixedRecord(data: seq<seq<string>>, i: nat, columns: seq<string>, fund: Fund,
                       styles: map<(nat, nat), nat>, colMap: map<string, nat>, keyIdx: nat): Record
    requires i < |data|
  {
    Record(fund, IndentAt(styles, i, keyIdx),
      map c | c in columns :: if c in colMap then RawCell(data[i], colMap[c]) else Text(""))
  }

  /** What `_parseFixed` returns. */
  function FixedRows(data: seq<seq<string>>, keyColumn: string, columns: seq<string>, fund: Fund,
                     styles: map<(nat, nat), nat>, layout: FixedLayout): seq<Record>
  {
    if keyColumn !in layout.colMap then []
    else
      var keyIdx := layout.colMap[keyColumn];
      var k := KeptRows(data, layout.startRow, |data|, keyIdx, true);
      seq(|k|, j requires 0 <= j < |k| => FixedRecord(data, k[j], columns, fund, styles, layout.colMap, keyIdx))
  }

  /** _parseFixed */
  method ParseFixed(data: seq<seq<string>>, keyColumn: string, columns: seq<string>, fund: Fund,
                    styles: map<(nat, nat), nat>, layout: FixedLayout) returns (records: seq<Record>)
    ensures records == FixedRows(data, keyColumn, columns, fund, styles, layout)
  {
    records := [];
    if keyColumn !in layout.colMap {
      return;
    }
    var keyIdx := layout.colMap[keyColumn];
    var i := layout.startRow;
    while i < |data|
      invariant layout.startRow <= i && (i <= |data| || i == layout.startRow)
      invariant records == FixedPrefix(data, i, columns, fund, styles, layout, keyIdx)
    {
      if Kept(data, i, keyIdx, true) {
        records := records + [FixedRecord(data, i, columns, fund, styles, layout.colMap, keyIdx)];
      }
      i := i + 1;
    }
    FixedPrefixComplete(data, keyColumn, columns, fund, styles, layout);
  }

  /** The records of the kept rows in [layout.startRow, hi), built one row at
      a time as the loop builds them. */
  ghost function FixedPrefix(data: seq<seq<string>>, hi: nat, columns: seq<string>, fund: Fund,
                             styles: map<(nat, nat), nat>, layout: FixedLayout, keyIdx: nat): seq<Record>
    decreases hi
  {
    if hi <= layout.startRow then []
    else
      FixedPrefix(data, hi - 1, columns, fund, styles, layout, keyIdx)
      + (if Kept(data, hi - 1, keyIdx, true) then [FixedRecord(data, hi - 1, columns, fund, styles, layout.colMap, keyIdx)] else [])
  }

  lemma FixedPrefixComplete(data: seq<seq<string>>, keyColumn: string, columns: seq<string>, fund: Fund,
                            styles: map<(nat, nat), nat>, layout: FixedLayout)
    requires keyColumn in layout.colMap
    ensures FixedPrefix(data, if layout.startRow <= |data| then |data| else layout.startRow, columns, fund, styles, layout, layout.colMap[keyColumn])
      == FixedRows(data, keyColumn, columns, fund, styles, layout)
  {
    FixedPrefixMatches(data, |data|, columns, fund, styles, layout, layout.colMap[keyColumn]);
  }

  lemma {:induction false} FixedPrefixMatches(data: seq<seq<string>>, hi: nat, columns: seq<string>, fund: Fund,
                                              styles: map<(nat, nat), nat>, layout: FixedLayout, keyIdx: nat)
    ensures var k := KeptRows(data, layout.startRow, hi, keyIdx, true);
      var r := FixedPrefix(data, hi, columns, fund, styles, layout, keyIdx);
      |r| == |k| && forall j :: 0 <= j < |k| ==> r[j] == FixedRecord(data, k[j], columns, fund, styles, layout.colMap, keyIdx)
    decreases hi
  {
    if hi > layout.startRow {
      FixedPrefixMatches(data, hi - 1, columns, fund, styles, layout, keyIdx);
      var k, k' := KeptRows(data, layout.startRow, hi - 1, keyIdx, true), KeptRows(data, layout.startRow, hi, keyIdx, true);
      var r, r' := FixedPrefix(data, hi - 1, columns, fund, styles, layout, keyIdx), FixedPrefix(data, hi, columns, fund, styles, layout, keyIdx);
      if Kept(data, hi - 1, keyIdx, true) {
        forall j | 0 <= j < |k'|
          ensures r'[j] == FixedRecord(data, k'[j], columns, fund, styles, layout.colMap, keyIdx)
        {
          if j < |k| {
            assert r'[j] == r[j] && k'[j] == k[j];
          }
        }
      }
    }
  }

  /** A `_parseFixed` record holds exactly the configured columns: the raw
      cell of a mapped column and '' for an unmapped one. */
  lemma FixedRecordShape(data: seq<seq<string>>, keyColumn: string, columns: seq<string>, fund: Fund,
                         styles: map<(nat, nat), nat>, layout: FixedLayout, j: nat)
    requires j < |FixedRows(data, keyColumn, columns, fund, styles, layout)|
    ensures var r := FixedRows(data, keyColumn, columns, fund, styles, layout)[j];
      var i := KeptRows(data, layout.startRow, |data|, layout.colMap[keyColumn], true)[j];
      && keyColumn in layout.colMap
      && r.fields.Keys == set c | c in columns
      && r.fund == fund
      && r.indent == IndentAt(styles, i, layout.colMap[keyColumn])
      && (forall c :: c in columns && c !in layout.colMap ==> r.fields[c] == Text(""))
      && (forall c :: c in columns && c in layout.colMap ==> r.fields[c] == RawCell(data[i], layout.colMap[c]))
  {
  }

  // ------------------------------------- layouts of the parseFixed* wrappers

  const YuchuLayout: FixedLayout := FixedLayout(4, map["項目" := 0, "預算數" := 3, "原列決算數" := 5,
    "修正數" := 8, "決算核定數" := 9, "預算與決算核定數比較增減" := 11])
  const XianliuLayout: FixedLayout := FixedLayout(5, map["項目" := 0, "決算核定數" := 3])
  const ShouzhiLayout: FixedLayout := FixedLayout(4, map["科目" := 0, "原列決算數" := 3, "修正數" := 4, "決算核定數" := 5])
  const AppropriationLayout: FixedLayout := FixedLayout(6, map["項目" := 2, "上年度決算數" := 0, "本年度預算數" := 3,
    "原列決算數" := 5, "修正數" := 6, "決算核定數" := 7])
  const CashFlowLayout: FixedLayout := FixedLayout(5, map["項目" := 0, "本年度預算數" := 1, "原列決算數" := 2,
    "修正數" := 3, "決算核定數" := 4])
  const BusinessAssetLayout: FixedLayout := FixedLayout(6, map["科目" := 3, "上年度決算數" := 1, "原列決算數" := 4,
    "修正數" := 5, "決算核定數" := 6])
  const BusinessLiabilityLayout: FixedLayout := FixedLayout(6, map["科目" := 10, "上年度決算數" := 8, "原列決算數" := 11,
    "修正數" := 12, "決算核定數" := 13])

  /** The column list parseFixedBusinessBalanceSheet hard-codes for both sides. */
  const BusinessBalanceColumns: seq<string> := ["科目", "上年度決算數", "原列決算數", "修正數", "決算核定數"]

  /** The layout each fixed-layout wrapper passes to `_parseFixed`. */
  function WrapperLayout(kind: ParserKind): Option<FixedLayout> {
    match kind
    case FixedYuchu => Some(YuchuLayout)
    case FixedXianliu => Some(XianliuLayout)
    case FixedShouzhi => Some(ShouzhiLayout)
    case BusinessAppropriation => Some(AppropriationLayout)
    case BusinessCashFlow => Some(CashFlowLayout)
    case _ => None
  }

  /** Whether a layout places every column of a column list. */
  predicate Covers(layout: FixedLayout, columns: seq<string>) {
    forall i :: 0 <= i < |columns| ==> columns[i] in layout.colMap
  }

  lemma GovernmentalLayoutsCover()
    ensures Covers(YuchuLayout, GovernmentalConfig[0].schema.columns)
    ensures Covers(ShouzhiLayout, GovernmentalConfig[1].schema.columns)
    ensures Covers(XianliuLayout, GovernmentalConfig[2].schema.columns)
  {
  }

  lemma BusinessStatementLayoutsCover()
    ensures Covers(AppropriationLayout, BusinessConfig[1].schema.columns)
    ensures Covers(CashFlowLayout, BusinessConfig[2].schema.columns)
  {
  }

  lemma BusinessBalanceLayoutsCover()
    ensures Covers(BusinessAssetLayout, BusinessBalanceColumns)
    ensures Covers(BusinessLiabilityLayout, BusinessBalanceColumns)
  {
  }

  /** Every fixed layout places each column its registry entry declares, so
      `_parseFixed` never falls back to '' for them. */
  lemma FixedLayoutsCoverSchemas()
    ensures Covers(YuchuLayout, GovernmentalConfig[0].schema.columns)
    ensures Covers(ShouzhiLayout, GovernmentalConfig[1].schema.columns)
    ensures Covers(XianliuLayout, GovernmentalConfig[2].schema.columns)
    ensures Covers(AppropriationLayout, BusinessConfig[1].schema.columns)
    ensures Covers(CashFlowLayout, BusinessConfig[2].schema.columns)
    ensures Covers(BusinessAssetLayout, BusinessBalanceColumns)
    ensures Covers(BusinessLiabilityLayout, BusinessBalanceColumns)
  {
    GovernmentalLayoutsCover();
    BusinessStatementLayoutsCover();
    BusinessBalanceLayoutsCover();
  }

  // -------------------------------------- parseNormalTable / _parseSideBySide

  /** The record the header-driven parsers build for row `i`: exactly the
      mapped columns, each the raw cell under its mapped index. */
  function MappedRecord(data: seq<seq<string>>, i: nat, mapping: map<string, nat>, fund: Fund,
                        styles: map<(nat, nat), nat>, keyIdx: nat): Record
    requires i < |data|
  {
    Record(fund, IndentAt(styles, i, keyIdx), map c | c in mapping :: RawCell(data[i], mapping[c]))
  }

  /** The records of the rows from `from` on that skip only 註 notes. */
  function MappedRows(data: seq<seq<string>>, from: nat, mapping: map<string, nat>, fund: Fund,
                      styles: map<(nat, nat), nat>, keyIdx: nat): seq<Record>
  {
    var k := KeptRows(data, from, |data|, keyIdx, false);
    seq(|k|, j requires 0 <= j < |k| => MappedRecord(data, k[j], mapping, fund, styles, keyIdx))
  }

  /** The row loop shared by parseNormalTable and _parseSideBySide. */
  method ReadMappedRows(data: seq<seq<string>>, from: nat, mapping: map<string, nat>, fund: Fund,
                        styles: map<(nat, nat), nat>, keyIdx: nat) returns (records: seq<Record>)
    ensures records == MappedRows(data, from, mapping, fund, styles, keyIdx)
  {
    records := [];
    var i := from;
    while i < |data|
      invariant from <= i && (i <= |data| || i == from)
      invariant records == MappedPrefix(data, from, i, mapping, fund, styles, keyIdx)
    {
      if Kept(data, i, keyIdx, false) {
        records := records + [MappedRecord(data, i, mapping, fund, styles, keyIdx)];
      }
      i := i + 1;
    }
    MappedPrefixComplete(data, from, mapping, fund, styles, keyIdx);
  }

  /** The records of the kept rows in [from, hi), built one row at a time as
      the loop builds them. */
  ghost function MappedPrefix(data: seq<seq<string>>, from: nat, hi: nat, mapping: map<string, nat>, fund: Fund,
                              styles: map<(nat, nat), nat>, keyIdx: nat): seq<Record>
    decreases hi
  {
    if hi <= from then []
    else
      MappedPrefix(data, from, hi - 1, mapping, fund, styles, keyIdx)
      + (if Kept(data, hi - 1, keyIdx, false) then [MappedRecord(data, hi - 1, mapping, fund, styles, keyIdx)] else [])
  }

  lemma {:induction false} MappedPrefixMatches(data: seq<seq<string>>, from: nat, hi: nat, mapping: map<string, nat>, fund: Fund,
                                               styles: map<(nat, nat), nat>, keyIdx: nat)
    ensures var k := KeptRows(data, from, hi, keyIdx, false);
      var r := MappedPrefix(data, from, hi, mapping, fund, styles, keyIdx);
      |r| == |k| && forall j :: 0 <= j < |k| ==> r[j] == MappedRecord(data, k[j], mapping, fund, styles, keyIdx)
    decreases hi
  {
    if hi > from {
      MappedPrefixMatches(data, from, hi - 1, mapping, fund, styles, keyIdx);
      var k, k' := KeptRows(data, from, hi - 1, keyIdx, false), KeptRows(data, from, hi, keyIdx, false);
      var r, r' := MappedPrefix(data, from, hi - 1, mapping, fund, styles, keyIdx), MappedPrefix(data, from, hi, mapping, fund, styles, keyIdx);
      if Kept(data, hi - 1, keyIdx, false) {
        forall j | 0 <= j < |k'|
          ensures r'[j] == MappedRecord(data, k'[j], mapping, fund, styles, keyIdx)
        {
          if j < |k| {
            assert r'[j] == r[j] && k'[j] == k[j];
          }
        }
      }
    }
  }

  lemma MappedPrefixComplete(data: seq<seq<string>>, from: nat, mapping: map<string, nat>, fund: Fund,
                             styles: map<(nat, nat), nat>, keyIdx: nat)
    ensures MappedPrefix(data, from, if from <= |data| then |data| else from, mapping, fund, styles, keyIdx)
      == MappedRows(data, from, mapping, fund, styles, keyIdx)
  {
    MappedPrefixMatches(data, from, |data|, mapping, fund, styles, keyIdx);
  }

  /** What parseNormalTable returns. */
  function NormalTableRows(data: seq<seq<string>>, schema: ReportSchema, fund: Fund, styles: map<(nat, nat), nat>): seq<Record> {
    var h := HeaderRowIndex(data, schema.columns);
    if h == -1 then []
    else
      var mapping := HeaderMapping(data[h], schema.columns, 0);
      if schema.keyColumn !in mapping then []
      else MappedRows(data, h + 1, mapping, fund, styles, mapping[schema.keyColumn])
  }

  /** parseNormalTable */
  method ParseNormalTable(data: seq<seq<string>>, schema: ReportSchema, fund: Fund, styles: map<(nat, nat), nat>)
    returns (records: seq<Record>)
    ensures records == NormalTableRows(data, schema, fund, styles)
  {
    var headerRowIndex := FindHeaderRowIndex(data, schema.columns);
    if headerRowIndex == -1 {
      return [];
    }
    var headerMapping := GetHeaderMapping(data[headerRowIndex], schema.columns, 0);
    if schema.keyColumn !in headerMapping {
      return [];
    }
    records := ReadMappedRows(data, headerRowIndex + 1, headerMapping, fund, styles, headerMapping[schema.keyColumn]);
  }

  /** The header-driven parsers emit one record per row from `from` on
      whose key is non-empty and not a 註 note, in row order; each holds
      exactly the mapped columns, the raw cell under each mapped index. */
  lemma MappedRowsMeaning(data: seq<seq<string>>, from: nat, mapping: map<string, nat>, fund: Fund,
                          styles: map<(nat, nat), nat>, keyIdx: nat)
    ensures var rows := MappedRows(data, from, mapping, fund, styles, keyIdx);
      var k := KeptRows(data, from, |data|, keyIdx, false);
      && |rows| == |k|
      && (forall j :: 0 <= j < |k| ==> Kept(data, k[j], keyIdx, false))
      && (forall i :: from <= i < |data| && Kept(data, i, keyIdx, false) ==> i in k)
      && (forall j :: 0 <= j < |k| ==>
            && rows[j].fields.Keys == mapping.Keys
            && rows[j].fund == fund
            && rows[j].indent == IndentAt(styles, k[j], keyIdx)
            && forall c :: c in mapping ==> rows[j].fields[c] == RawCell(data[k[j]], mapping[c]))
  {
    KeptRowsExact(data, from, |data|, keyIdx, false);
  }

  /** The configuration of one half of a side-by-side balance sheet. */
  datatype SubTable = SubTable(keyColumn: string, columns: seq<string>, identifier: string)

  const BalanceColumns: seq<string> := ["科目", "本年度決算核定數", "上年度決算審定數", "比較增減"]
  const AssetSide: SubTable := SubTable("科目", BalanceColumns, "資產")
  const LiabilitySide: SubTable := SubTable("科目", BalanceColumns, "負債")

  /** Whether a header cell, white space stripped, mentions the key column. */
  predicate KeyHeader(header: seq<string>, i: nat, keyColumn: string)
    requires i < |header|
  {
    Contains(StripSpace(header[i]), keyColumn)
  }

  /** How many header cells mention the key column (the `filter(...).length`). */
  function KeyHeaderCount(header: seq<string>, keyColumn: string, n: nat): nat
    requires n <= |header|
  {
    if n == 0 then 0 else KeyHeaderCount(header, keyColumn, n - 1) + (if KeyHeader(header, n - 1, keyColumn) then 1 else 0)
  }

  /** The rest of the scan for the second key-column header from `i`. */
  function SecondFrom(header: seq<string>, keyColumn: string, i: nat, foundFirst: bool): nat
    decreases |header| - i
  {
    if i >= |header| then 0
    else if KeyHeader(header, i, keyColumn) then (if foundFirst then i else SecondFrom(header, keyColumn, i + 1, true))
    else SecondFrom(header, keyColumn, i + 1, foundFirst)
  }

  /** The column where the liabilities half starts: the second header cell
      mentioning the key column, or 0 when there is none. */
  function SecondKeyHeader(header: seq<string>, keyColumn: string): nat {
    SecondFrom(header, keyColumn, 0, false)
  }

  lemma {:induction false} SecondFromMeaning(header: seq<string>, keyColumn: string, i: nat, foundFirst: bool)
    requires i <= |header|
    requires foundFirst <==> KeyHeaderCount(header, keyColumn, i) >= 1
    requires KeyHeaderCount(header, keyColumn, i) <= 1
    ensures var r := SecondFrom(header, keyColumn, i, foundFirst);
      && (r == 0 <==> KeyHeaderCount(header, keyColumn, |header|) <= 1)
      && (r != 0 ==> i <= r < |header| && KeyHeader(header, r, keyColumn) && KeyHeaderCount(header, keyColumn, r) == 1)
    decreases |header| - i
  {
    if i < |header| {
      if KeyHeader(header, i, keyColumn) && foundFirst {
        CountGrows(header, keyColumn, i + 1, |header|);
        assert KeyHeaderCount(header, keyColumn, 0) == 0;
      } else {
        SecondFromMeaning(header, keyColumn, i + 1, foundFirst || KeyHeader(header, i, keyColumn));
      }
    }
  }

  lemma {:induction false} CountGrows(header: seq<string>, keyColumn: string, a: nat, b: nat)
    requires a <= b <= |header|
    ensures KeyHeaderCount(header, keyColumn, a) <= KeyHeaderCount(header, keyColumn, b)
    decreases b - a
  {
    if a < b {
      CountGrows(header, keyColumn, a, b - 1);
    }
  }

  /** The liabilities half starts at the second key-column header, which is
      never column 0; so the start column is 0 exactly when at most one header
      cell mentions the key column, and the source's early return for "start
      column 0 yet more than one such cell" can never fire. */
  lemma SecondKeyHeaderMeaning(header: seq<string>, keyColumn: string)
    ensures var r := SecondKeyHeader(header, keyColumn);
      && (r == 0 <==> KeyHeaderCount(header, keyColumn, |header|) <= 1)
      && (r != 0 ==> r < |header| && KeyHeader(header, r, keyColumn) && KeyHeaderCount(header, keyColumn, r) == 1)
  {
    SecondFromMeaning(header, keyColumn, 0, false);
  }

  /** The header-cell loop of _parseSideBySide with its `foundFirst` flag. */
  method SecondKeyColumn(header: seq<string>, keyColumn: string) returns (col: nat)
    ensures col == SecondKeyHeader(header, keyColumn)
  {
    col := 0;
    var foundFirst := false;
    var i := 0;
    while i < |header|
      invariant i <= |header|
      invariant SecondFrom(header, keyColumn, i, foundFirst) == SecondKeyHeader(header, keyColumn)
    {
      if Contains(StripSpace(header[i]), keyColumn) {
        if foundFirst {
          col := i;
          return;
        }
        foundFirst := true;
      }
      i := i + 1;
    }
  }

  /** `data.findIndex(row => String(row[col] || '').includes(identifier))` */
  function FirstRowWith(data: seq<seq<string>>, col: nat, identifier: string): (r: int)
    ensures r == -1 <==> forall i :: 0 <= i < |data| ==> !Contains(CellText(data[i], col), identifier)
    ensures r != -1 ==> (0 <= r < |data| && Contains(CellText(data[r], col), identifier)
      && forall i :: 0 <= i < r ==> !Contains(CellText(data[i], col), identifier))
  {
    FirstRowFrom(data, col, identifier, 0)
  }

  function FirstRowFrom(data: seq<seq<string>>, col: nat, identifier: string, i: nat): (r: int)
    requires i <= |data|
    ensures r == -1 <==> forall j :: i <= j < |data| ==> !Contains(CellText(data[j], col), identifier)
    ensures r != -1 ==> (i <= r < |data| && Contains(CellText(data[r], col), identifier)
      && forall j :: i <= j < r ==> !Contains(CellText(data[j], col), identifier))
    decreases |data| - i
  {
    if i == |data| then -1
    else if Contains(CellText(data[i], col), identifier) then i
    else FirstRowFrom(data, col, identifier, i + 1)
  }

  /** The first column of a half: 0 for the assets, the second key-column
      header for the liabilities. */
  function StartColumn(header: seq<string>, sub: SubTable): nat {
    if sub.identifier == "負債" then SecondKeyHeader(header, sub.keyColumn) else 0
  }

  /** The first data row of a half: the first row anywhere whose start-column
      cell mentions the identifier, else the row after the header. */
  function DataStartRow(data: seq<seq<string>>, startCol: nat, identifier: string, h: nat): nat {
    var f := FirstRowWith(data, startCol, identifier);
    if f == -1 then h + 1 else f
  }

  /** What _parseSideBySide returns. */
  function SideBySideRows(data: seq<seq<string>>, sub: SubTable, fund: Fund, styles: map<(nat, nat), nat>): seq<Record> {
    var h := HeaderRowIndex(data, sub.columns);
    if h == -1 then []
    else
      var startCol := StartColumn(data[h], sub);
      if sub.identifier == "負債" && startCol == 0 && KeyHeaderCount(data[h], sub.keyColumn, |data[h]|) > 1 then []
      else
        var mapping := HeaderMapping(data[h], sub.columns, startCol);
        if sub.keyColumn !in mapping then []
        else MappedRows(data, DataStartRow(data, startCol, sub.identifier, h), mapping, fund, styles, mapping[sub.keyColumn])
  }

  /** _parseSideBySide */
  method ParseSideBySide(data: seq<seq<string>>, sub: SubTable, fund: Fund, styles: map<(nat, nat), nat>)
    returns (records: seq<Record>)
    ensures records == SideBySideRows(data, sub, fund, styles)
  {
    var headerRowIndex := FindHeaderRowIndex(data, sub.columns);
    if headerRowIndex == -1 {
      return [];
    }
    var tableStartCol := 0;
    if sub.identifier == "負債" {
      tableStartCol := SecondKeyColumn(data[headerRowIndex], sub.keyColumn);
      if tableStartCol == 0 && KeyHeaderCount(data[headerRowIndex], sub.keyColumn, |data[headerRowIndex]|) > 1 {
        return [];
      }
    }
    assert tableStartCol == StartColumn(data[headerRowIndex], sub);
    var headerMapping := GetHeaderMapping(data[headerRowIndex], sub.columns, tableStartCol);
    if sub.keyColumn !in headerMapping {
      return [];
    }
    var dataStartRowIndex := FirstRowWith(data, tableStartCol, sub.identifier);
    if dataStartRowIndex == -1 {
      dataStartRowIndex := headerRowIndex + 1;
    }
    assert dataStartRowIndex == DataStartRow(data, tableStartCol, sub.identifier, headerRowIndex);
    records := ReadMappedRows(data, dataStartRowIndex, headerMapping, fund, styles, headerMapping[sub.keyColumn]);
  }

  /** parseBalanceSheet as declared, `(data, fundName, sheet)`. processFile
      calls it with the registry entry in the `fundName` position and the fund
      name string in the `sheet` position. */
  method ParseBalanceSheet(data: seq<seq<string>>, fundName: Fund, sheet: map<(nat, nat), nat>)
    returns (parts: seq<(string, seq<Record>)>)
    ensures parts == BalanceSheetParts(data, fundName, sheet)
  {
    var assetRecords := ParseSideBySide(data, AssetSide, fundName, sheet);
    var liabilityRecords := ParseSideBySide(data, LiabilitySide, fundName, sheet);
    parts := [("平衡表_資產", assetRecords), ("平衡表_負債及權益", liabilityRecords)];
  }

  function BalanceSheetParts(data: seq<seq<string>>, fundName: Fund, sheet: map<(nat, nat), nat>): seq<(string, seq<Record>)> {
    [("平衡表_資產", SideBySideRows(data, AssetSide, fundName, sheet)),
     ("平衡表_負債及權益", SideBySideRows(data, LiabilitySide, fundName, sheet))]
  }

  /** parseFixedBusinessBalanceSheet as declared, `(data, fundName, sheet)`,
      and called like parseBalanceSheet. */
  method ParseFixedBusinessBalanceSheet(data: seq<seq<string>>, fundName: Fund, sheet: map<(nat, nat), nat>)
    returns (parts: seq<(string, seq<Record>)>)
    ensures parts == BusinessBalanceSheetParts(data, fundName, sheet)
  {
    var assetRecords := ParseFixed(data, "科目", BusinessBalanceColumns, fundName, sheet, BusinessAssetLayout);
    var liabilityRecords := ParseFixed(data, "科目", BusinessBalanceColumns, fundName, sheet, BusinessLiabilityLayout);
    parts := [("資產負債表_資產", assetRecords), ("資產負債表_負債及權益", liabilityRecords)];
  }

  function BusinessBalanceSheetParts(data: seq<seq<string>>, fundName: Fund, sheet: map<(nat, nat), nat>): seq<(string, seq<Record>)> {
    [("資產負債表_資產", FixedRows(data, "科目", BusinessBalanceColumns, fundName, sheet, BusinessAssetLayout)),
     ("資產負債表_負債及權益", FixedRows(data, "科目", BusinessBalanceColumns, fundName, sheet, BusinessLiabilityLayout))]
  }

  /** The column lists hard-coded in the balance-sheet parsers are the
      registry's balance-sheet columns. */
  lemma BalanceColumnsMatchRegistry()
    ensures AssetSide.columns == LiabilitySide.columns == OperatingConfig[3].schema.columns
    ensures OperatingConfig[3].schema.columns == GovernmentalConfig[3].schema.columns
    ensures AssetSide.keyColumn == LiabilitySide.keyColumn == OperatingConfig[3].schema.keyColumn
    ensures BusinessBalanceColumns == BusinessConfig[3].schema.columns
    ensures BusinessConfig[3].schema.keyColumn == "科目"
  {
  }

  // ---------------------------------------- parseBusinessProfitLoss_Stateful

  const ProfitLossColumns: map<string, nat> := map["科目" := 2, "上年度決算數" := 0, "本年度預算數" := 3,
    "原列決算數" := 5, "修正數" := 6, "決算核定數" := 7]
  const NonOperatingHeading: string := "營業外收入"
  const EquityProfit: string := "採用權益法認列之關聯企業及合資利益之份額"
  const EquityLoss: string := "採用權益法認列之關聯企業及合資損失之份額"
  const NonOperatingSuffix: string := " (營業外)"

  /** `split('(')[0]` */
  function BeforeParen(s: string): (r: string)
    ensures '(' !in r
    ensures |r| <= |s|
  {
    if s == [] then []
    else if s[0] == '(' then []
    else [s[0]] + BeforeParen(s[1..])
  }

  /** The stateful parser's `normalize`: white space removed, cut at the first '('. */
  function Normalize(name: string): string {
    BeforeParen(StripSpace(name))
  }

  lemma {:induction false} StripSpaceNoSpace(s: string)
    requires forall i :: 0 <= i < |s| ==> !IsSpace(s[i])
    ensures StripSpace(s) == s
  {
    if s != [] {
      StripSpaceNoSpace(s[1..]);
    }
  }

  lemma {:induction false} BeforeParenNoParen(s: string)
    requires '(' !in s
    ensures BeforeParen(s) == s
  {
    if s != [] {
      assert '(' !in s[1..] by {
        assert forall i :: 0 <= i < |s[1..]| ==> s[1..][i] == s[i + 1];
      }
      BeforeParenNoParen(s[1..]);
    }
  }

  lemma {:induction false} BeforeParenAppend(a: string, b: string)
    requires b != [] && b[0] == '('
    ensures BeforeParen(a + b) == BeforeParen(a)
  {
    if a == [] {
      assert a + b == b;
    } else {
      assert (a + b)[0] == a[0] && (a + b)[1..] == a[1..] + b;
      BeforeParenAppend(a[1..], b);
    }
  }

  lemma {:induction false} BeforeParenKeepsNoSpace(s: string)
    requires forall i :: 0 <= i < |s| ==> !IsSpace(s[i])
    ensures forall i :: 0 <= i < |BeforeParen(s)| ==> !IsSpace(BeforeParen(s)[i])
  {
    if s != [] && s[0] != '(' {
      BeforeParenKeepsNoSpace(s[1..]);
    }
  }

  /** normalize is idempotent. */
  lemma NormalizeIdempotent(name: string)
    ensures Normalize(Normalize(name)) == Normalize(name)
  {
    var n := Normalize(name);
    BeforeParenKeepsNoSpace(StripSpace(name));
    StripSpaceNoSpace(n);
    BeforeParenNoParen(n);
  }

  /** normalize maps a key carrying the ' (營業外)' suffix back to the key. */
  lemma NormalizeDropsSuffix(key: string)
    ensures Normalize(key + NonOperatingSuffix) == Normalize(key)
  {
    var tail := "(營業外)";
    assert NonOperatingSuffix == [' '] + tail;
    StripSpaceAppend(key, NonOperatingSuffix);
    StripSpaceAppend([' '], tail);
    assert forall i :: 0 <= i < |tail| ==> !IsSpace(tail[i]);
    StripSpaceNoSpace(tail);
    assert StripSpace([' ']) == [];
    BeforeParenAppend(StripSpace(key), tail);
  }

  /** The flag after rows [lo, hi): whether some kept row among them has the
      normalized key 營業外收入. */
  function NonOperatingFrom(data: seq<seq<string>>, keyIdx: nat, lo: nat, hi: nat): bool
    decreases hi
  {
    if hi <= lo then false
    else
      || NonOperatingFrom(data, keyIdx, lo, hi - 1)
      || (Kept(data, hi - 1, keyIdx, false) && Normalize(KeyText(data, hi - 1, keyIdx)) == NonOperatingHeading)
  }

  /** The flag is on at row `i` exactly when a kept row at or before `i` (and
      at or after `lo`) is the 營業外收入 heading; once on it stays on. */
  lemma {:induction false} NonOperatingMeaning(data: seq<seq<string>>, keyIdx: nat, lo: nat, hi: nat)
    ensures NonOperatingFrom(data, keyIdx, lo, hi) <==>
      exists j :: lo <= j < hi && Kept(data, j, keyIdx, false) && Normalize(KeyText(data, j, keyIdx)) == NonOperatingHeading
    ensures forall h :: hi <= h && NonOperatingFrom(data, keyIdx, lo, hi) ==> NonOperatingFrom(data, keyIdx, lo, h)
    decreases hi
  {
    if hi > lo {
      NonOperatingMeaning(data, keyIdx, lo, hi - 1);
    }
    forall h | hi <= h && NonOperatingFrom(data, keyIdx, lo, hi)
      ensures NonOperatingFrom(data, keyIdx, lo, h)
    {
      FlagStaysOn(data, keyIdx, lo, hi, h);
    }
  }

  lemma {:induction false} FlagStaysOn(data: seq<seq<string>>, keyIdx: nat, lo: nat, hi: nat, h: nat)
    requires hi <= h && NonOperatingFrom(data, keyIdx, lo, hi)
    ensures NonOperatingFrom(data, keyIdx, lo, h)
    decreases h - hi
  {
    if hi < h {
      FlagStaysOn(data, keyIdx, lo, hi, h - 1);
    }
  }

  /** The key the stateful parser stores for row `i`: the trimmed key, with
      ' (營業外)' appended to the two equity-method accounts once the
      non-operating flag is on. */
  function ProfitLossKey(data: seq<seq<string>>, i: nat, keyIdx: nat, nonOperating: bool): string
    requires i < |data|
  {
    var keyText := KeyText(data, i, keyIdx);
    var n := Normalize(keyText);
    if (n == EquityProfit || n == EquityLoss) && nonOperating then keyText + NonOperatingSuffix else keyText
  }

  /** The columns a stateful record holds: the key column and each other
      configured column that the parser's layout places. */
  function ProfitLossFields(schema: ReportSchema): set<string> {
    {schema.keyColumn} + set c | c in schema.columns && c in ProfitLossColumns
  }

  /** The record the stateful parser builds for row `i`: the key column with
      the possibly suffixed key, and each other configured column that the
      parser's layout places. */
  function ProfitLossRecord(data: seq<seq<string>>, i: nat, schema: ReportSchema, fund: Fund,
                            styles: map<(nat, nat), nat>, keyIdx: nat, nonOperating: bool): Record
    requires i < |data|
  {
    Record(fund, IndentAt(styles, i, keyIdx),
      map c | c in ProfitLossFields(schema) ::
        if c == schema.keyColumn then Text(ProfitLossKey(data, i, keyIdx, nonOperating))
        else RawCell(data[i], ProfitLossColumns[c]))
  }

  /** What parseBusinessProfitLoss_Stateful returns: rows before index 6 are
      never read. */
  function ProfitLossRows(data: seq<seq<string>>, schema: ReportSchema, fund: Fund, styles: map<(nat, nat), nat>): seq<Record> {
    if schema.keyColumn !in ProfitLossColumns then []
    else
      var keyIdx := ProfitLossColumns[schema.keyColumn];
      var k := KeptRows(data, 6, |data|, keyIdx, false);
      seq(|k|, j requires 0 <= j < |k| =>
        ProfitLossRecord(data, k[j], schema, fund, styles, keyIdx, NonOperatingFrom(data, keyIdx, 6, k[j] + 1)))
  }

  /** parseBusinessProfitLoss_Stateful */
  method ParseProfitLossStateful(data: seq<seq<string>>, schema: ReportSchema, fund: Fund, styles: map<(nat, nat), nat>)
    returns (records: seq<Record>)
    ensures records == ProfitLossRows(data, schema, fund, styles)
  {
    records := [];
    if schema.keyColumn !in ProfitLossColumns {
      return;
    }
    var keyColIndex := ProfitLossColumns[schema.keyColumn];
    var inNonOperatingSection := false;
    var i := 6;
    while i < |data|
      invariant 6 <= i && (i <= |data| || i == 6)
      invariant inNonOperatingSection == NonOperatingFrom(data, keyColIndex, 6, i)
      invariant records == ProfitLossPrefix(data, i, schema, fund, styles, keyColIndex)
    {
      if Kept(data, i, keyColIndex, false) {
        if Normalize(KeyText(data, i, keyColIndex)) == NonOperatingHeading {
          inNonOperatingSection := true;
        }
        assert inNonOperatingSection == NonOperatingFrom(data, keyColIndex, 6, i + 1);
        records := records + [ProfitLossRecord(data, i, schema, fund, styles, keyColIndex, inNonOperatingSection)];
      }
      i := i + 1;
    }
    ProfitLossPrefixComplete(data, schema, fund, styles);
  }

  /** The records of the kept rows in [6, hi), built one row at a time as the
      loop builds them, each with the flag as it stands once its row was read. */
  ghost function ProfitLossPrefix(data: seq<seq<string>>, hi: nat, schema: ReportSchema, fund: Fund,
                                  styles: map<(nat, nat), nat>, keyIdx: nat): seq<Record>
    decreases hi
  {
    if hi <= 6 then []
    else
      ProfitLossPrefix(data, hi - 1, schema, fund, styles, keyIdx)
      + (if Kept(data, hi - 1, keyIdx, false)
         then [ProfitLossRecord(data, hi - 1, schema, fund, styles, keyIdx, NonOperatingFrom(data, keyIdx, 6, hi))]
         else [])
  }

  lemma {:induction false} ProfitLossPrefixMatches(data: seq<seq<string>>, hi: nat, schema: ReportSchema, fund: Fund,
                                                   styles: map<(nat, nat), nat>, keyIdx: nat)
    ensures var k := KeptRows(data, 6, hi, keyIdx, false);
      var r := ProfitLossPrefix(data, hi, schema, fund, styles, keyIdx);
      |r| == |k| && forall j :: 0 <= j < |k| ==>
        r[j] == ProfitLossRecord(data, k[j], schema, fund, styles, keyIdx, NonOperatingFrom(data, keyIdx, 6, k[j] + 1))
    decreases hi
  {
    if hi > 6 {
      ProfitLossPrefixMatches(data, hi - 1, schema, fund, styles, keyIdx);
      var k, k' := KeptRows(data, 6, hi - 1, keyIdx, false), KeptRows(data, 6, hi, keyIdx, false);
      var r, r' := ProfitLossPrefix(data, hi - 1, schema, fund, styles, keyIdx), ProfitLossPrefix(data, hi, schema, fund, styles, keyIdx);
      if Kept(data, hi - 1, keyIdx, false) {
        forall j | 0 <= j < |k'|
          ensures r'[j] == ProfitLossRecord(data, k'[j], schema, fund, styles, keyIdx, NonOperatingFrom(data, keyIdx, 6, k'[j] + 1))
        {
          if j < |k| {
            assert r'[j] == r[j] && k'[j] == k[j];
          }
        }
      }
    }
  }

  lemma ProfitLossPrefixComplete(data: seq<seq<string>>, schema: ReportSchema, fund: Fund, styles: map<(nat, nat), nat>)
    requires schema.keyColumn in ProfitLossColumns
    ensures var keyIdx := ProfitLossColumns[schema.keyColumn];
      ProfitLossPrefix(data, if 6 <= |data| then |data| else 6, schema, fund, styles, keyIdx)
        == ProfitLossRows(data, schema, fund, styles)
  {
    ProfitLossPrefixMatches(data, |data|, schema, fund, styles, ProfitLossColumns[schema.keyColumn]);
  }

  /** Only the two equity-method accounts are renamed, only after the
      非-operating heading, and the renamed key normalizes back to the account. */
  lemma ProfitLossRenaming(data: seq<seq<string>>, i: nat, keyIdx: nat, nonOperating: bool)
    requires i < |data|
    ensures var key := KeyText(data, i, keyIdx);
      var n := Normalize(key);
      && (ProfitLossKey(data, i, keyIdx, nonOperating) != key <==> nonOperating && (n == EquityProfit || n == EquityLoss))
      && Normalize(ProfitLossKey(data, i, keyIdx, nonOperating)) == n
  {
    NormalizeDropsSuffix(KeyText(data, i, keyIdx));
    var key := KeyText(data, i, keyIdx);
    assert |key + NonOperatingSuffix| > |key|;
  }

  // --------------------------------------------------------------- PARSERS

  datatype ParserKind =
    | DynamicNormal | BalanceSheet | FixedYuchu | FixedXianliu | FixedShouzhi
    | BusinessProfitLossStateful | BusinessAppropriation | BusinessCashFlow | BusinessBalanceSheet

  /** PARSERS: the parser registered under each tag. */
  const Parsers: map<string, ParserKind> := map[
    "dynamic_normal" := DynamicNormal,
    "balance_sheet" := BalanceSheet,
    "fixed_yuchu" := FixedYuchu,
    "fixed_xianliu" := FixedXianliu,
    "fixed_shouzhi" := FixedShouzhi,
    "fixed_business_profitloss_stateful" := BusinessProfitLossStateful,
    "fixed_business_appropriation" := BusinessAppropriation,
    "fixed_business_cashflow" := BusinessCashFlow,
    "fixed_business_balancesheet" := BusinessBalanceSheet
  ]

  /** The business 損益表 entry names the tag 'fixed_business_profitloss',
      which PARSERS does not register: only '..._stateful' is there. Every
      other registry tag is registered. */
  lemma ProfitLossTagUnregistered()
    ensures BusinessConfig[0].schema.parser !in Parsers
    ensures "fixed_business_profitloss_stateful" in Parsers
    ensures forall t: FundType, i :: 0 <= i < |ActiveConfig(t)| && !(t == Business && i == 0) ==>
      ActiveConfig(t)[i].schema.parser in Parsers
  {
  }

  /** What a parser hands back: a list of records, or the two halves of a
      balance sheet under their report keys. */
  datatype ParseOutput = Rows(records: seq<Record>) | Split(parts: seq<(string, seq<Record>)>)

  /** The call `parserFunc(data, config, fundName, sheet)`. */
  function ParserOutput(kind: ParserKind, data: seq<seq<string>>, schema: ReportSchema, fundName: string,
                        styles: map<(nat, nat), nat>): ParseOutput
  {
    var fund := FundName(fundName);
    match kind
    case DynamicNormal => Rows(NormalTableRows(data, schema, fund, styles))
    case BalanceSheet => Split(BalanceSheetParts(data, SchemaObject(schema), map[]))
    case FixedYuchu => Rows(FixedRows(data, schema.keyColumn, schema.columns, fund, styles, YuchuLayout))
    case FixedXianliu => Rows(FixedRows(data, schema.keyColumn, schema.columns, fund, styles, XianliuLayout))
    case FixedShouzhi => Rows(FixedRows(data, schema.keyColumn, schema.columns, fund, styles, ShouzhiLayout))
    case BusinessProfitLossStateful => Rows(ProfitLossRows(data, schema, fund, styles))
    case BusinessAppropriation => Rows(FixedRows(data, schema.keyColumn, schema.columns, fund, styles, AppropriationLayout))
    case BusinessCashFlow => Rows(FixedRows(data, schema.keyColumn, schema.columns, fund, styles, CashFlowLayout))
    case BusinessBalanceSheet => Split(BusinessBalanceSheetParts(data, SchemaObject(schema), map[]))
  }

  /** Runs the parser a tag selects. The two balance-sheet parsers receive the
      registry entry where they expect the fund name, and the fund name (a
      string, with no cell styles) where they expect the sheet. */
  method RunParser(kind: ParserKind, data: seq<seq<string>>, schema: ReportSchema, fundName: string,
                   styles: map<(nat, nat), nat>) returns (out: ParseOutput)
    ensures out == ParserOutput(kind, data, schema, fundName, styles)
  {
    var fund := FundName(fundName);
    match kind {
      case DynamicNormal =>
        var r := ParseNormalTable(data, schema, fund, styles);
        out := Rows(r);
      case BalanceSheet =>
        var p := ParseBalanceSheet(data, SchemaObject(schema), map[]);
        out := Split(p);
      case FixedYuchu =>
        var r := ParseFixed(data, schema.keyColumn, schema.columns, fund, styles, YuchuLayout);
        out := Rows(r);
      case FixedXianliu =>
        var r := ParseFixed(data, schema.keyColumn, schema.columns, fund, styles, XianliuLayout);
        out := Rows(r);
      case FixedShouzhi =>
        var r := ParseFixed(data, schema.keyColumn, schema.columns, fund, styles, ShouzhiLayout);
        out := Rows(r);
      case BusinessProfitLossStateful =>
        var r := ParseProfitLossStateful(data, schema, fund, styles);
        out := Rows(r);
      case BusinessAppropriation =>
        var r := ParseFixed(data, schema.keyColumn, schema.columns, fund, styles, AppropriationLayout);
        out := Rows(r);
      case BusinessCashFlow =>
        var r := ParseFixed(data, schema.keyColumn, schema.columns, fund, styles, CashFlowLayout);
        out := Rows(r);
      case BusinessBalanceSheet =>
        var p := ParseFixedBusinessBalanceSheet(data, SchemaObject(schema), map[]);
        out := Split(p);
    }
  }

  /** Records from the balance-sheet parsers carry the registry entry as
      their fund and indent 0. */
  lemma BalanceSheetRecordsCarrySchema(kind: ParserKind, data: seq<seq<string>>, schema: ReportSchema,
                                       fundName: string, styles: map<(nat, nat), nat>, p: nat, j: nat)
    requires kind == BalanceSheet || kind == BusinessBalanceSheet
    requires var out := ParserOutput(kind, data, schema, fundName, styles);
      p < |out.parts| && j < |out.parts[p].1|
    ensures var r := ParserOutput(kind, data, schema, fundName, styles).parts[p].1[j];
      r.fund == SchemaObject(schema) && r.indent == 0
  {
    var fund := SchemaObject(schema);
    if kind == BalanceSheet {
      SideBySideUnstyled(data, AssetSide, fund);
      SideBySideUnstyled(data, LiabilitySide, fund);
    } else {
      FixedUnstyled(data, "科目", BusinessBalanceColumns, fund, BusinessAssetLayout);
      FixedUnstyled(data, "科目", BusinessBalanceColumns, fund, BusinessLiabilityLayout);
    }
  }

  /** Without cell styles every side-by-side record has indent 0. */
  lemma SideBySideUnstyled(data: seq<seq<string>>, sub: SubTable, fund: Fund)
    ensures var rows := SideBySideRows(data, sub, fund, map[]);
      forall j :: 0 <= j < |rows| ==> rows[j].fund == fund && rows[j].indent == 0
  {
    var h := HeaderRowIndex(data, sub.columns);
    if h != -1 {
      var startCol := StartColumn(data[h], sub);
      var mapping := HeaderMapping(data[h], sub.columns, startCol);
      if sub.keyColumn in mapping {
        var rows := MappedRows(data, DataStartRow(data, startCol, sub.identifier, h), mapping, fund, map[], mapping[sub.keyColumn]);
        assert forall j :: 0 <= j < |rows| ==> rows[j].fund == fund && rows[j].indent == 0;
      }
    }
  }

  /** Without cell styles every fixed-layout record has indent 0. */
  lemma FixedUnstyled(data: seq<seq<string>>, keyColumn: string, columns: seq<string>, fund: Fund, layout: FixedLayout)
    ensures var rows := FixedRows(data, keyColumn, columns, fund, map[], layout);
      forall j :: 0 <= j < |rows| ==> rows[j].fund == fund && rows[j].indent == 0
  {
  }

  // ------------------------------------------------------------ processFile

  type Extracted = map<string, seq<Record>>

  /** `if (!extractedData[key]) extractedData[key] = []; extractedData[key].push(...rows)` */
  function Append(data: Extracted, key: string, rows: seq<Record>): Extracted {
    data[key := (if key in data then data[key] else []) + rows]
  }

  /** The halves of a balance sheet added one by one, each only when non-empty. */
  function AppendParts(data: Extracted, parts: seq<(string, seq<Record>)>, n: nat): Extracted
    requires n <= |parts|
  {
    if n == 0 then data
    else
      var d := AppendParts(data, parts, n - 1);
      if |parts[n - 1].1| > 0 then Append(d, parts[n - 1].0, parts[n - 1].1) else d
  }

  /** How processFile files one statement's output under its report key. A
      list under a balance-sheet key, or halves under any other key, add
      nothing: the loop over an array's indices finds no `length`, and an
      object has none. */
  function FileOutput(data: Extracted, reportKey: string, out: ParseOutput): Extracted {
    if IsBalanceSheetKey(reportKey) then
      (match out
       case Split(parts) => AppendParts(data, parts, |parts|)
       case Rows(_) => data)
    else
      (match out
       case Rows(records) => if |records| > 0 then Append(data, reportKey, records) else data
       case Split(_) => data)
  }

  /** The `for (const key in records)` loop of processFile for a balance sheet. */
  method FileParts(data: Extracted, parts: seq<(string, seq<Record>)>) returns (d: Extracted)
    ensures d == AppendParts(data, parts, |parts|)
  {
    d := data;
    var n := 0;
    while n < |parts|
      invariant n <= |parts|
      invariant d == AppendParts(data, parts, n)
    {
      var key := parts[n].0;
      if |parts[n].1| > 0 {
        if key !in d {
          d := d[key := []];
        }
        d := d[key := d[key] + parts[n].1];
      }
      n := n + 1;
    }
  }

  /** One registry entry's contribution, if its sheet is found and its tag is
      registered. */
  function StatementOutput(wb: Workbook, fundName: string, kind: ReportKind): Option<ParseOutput> {
    var s := FindSheet(wb, kind.schema.sheetKeyword);
    if s.None? || kind.schema.parser !in Parsers then None
    else
      var sheet := wb[s.value];
      Some(ParserOutput(Parsers[kind.schema.parser], sheet.grid, kind.schema, fundName, sheet.styles))
  }

  /** `extractedData` after the first `n` registry entries. */
  function ExtractedUpTo(wb: Workbook, fundName: string, cat: Category, n: nat): Extracted
    requires n <= |cat|
  {
    if n == 0 then map[]
    else
      var d := ExtractedUpTo(wb, fundName, cat, n - 1);
      var out := StatementOutput(wb, fundName, cat[n - 1]);
      if out.None? then d else FileOutput(d, cat[n - 1].name, out.value)
  }

  /** `file.name.replace(/\.xlsx?$/, '')` */
  function StripExtension(name: string): string {
    if EndsWith(name, ".xlsx") then name[..|name| - 5]
    else if EndsWith(name, ".xls") then name[..|name| - 4]
    else name
  }

  /** The fallback fund name is the file name with its .xlsx or .xls
      extension removed. */
  lemma StripExtensionMeaning(base: string)
    ensures StripExtension(base + ".xlsx") == base
    ensures StripExtension(base + ".xls") == base
  {
    var x := base + ".xlsx";
    assert x[|x| - 5..] == ".xlsx";
    assert x[..|x| - 5] == base;
    var y := base + ".xls";
    assert y[|y| - 4..] == ".xls";
    assert y[..|y| - 4] == base;
    assert !EndsWith(y, ".xlsx") by {
      if |y| >= 5 { assert y[|y| - 5..][4] == 's'; }
    }
  }

  /** The fund name processFile uses: the extracted one when it is non-empty,
      otherwise the file name without its .xls or .xlsx extension. */
  function FundNameFor(wb: Workbook, fileName: string): string {
    var e := FundNameOf(wb);
    if e.Some? && e.value != "" then e.value else StripExtension(fileName)
  }

  datatype FileResult = FileResult(fundName: string, fileName: string, data: Extracted)

  /** What processFile resolves to for a decoded workbook. */
  function FileResultOf(wb: Workbook, fileName: string, t: FundType): Option<FileResult> {
    var fundName := FundNameFor(wb, fileName);
    var data := ExtractedUpTo(wb, fundName, ActiveConfig(t), |ActiveConfig(t)|);
    if |data| > 0 then Some(FileResult(fundName, fileName, data)) else None
  }

  /** The sheet lookup and parser call for one registry entry. */
  method ParseStatement(wb: Workbook, fundName: string, kind: ReportKind) returns (out: Option<ParseOutput>)
    ensures out == StatementOutput(wb, fundName, kind)
  {
    var sheetName := FindSheet(wb, kind.schema.sheetKeyword);
    if sheetName.None? || kind.schema.parser !in Parsers {
      return None;
    }
    var sheet := wb[sheetName.value];
    var records := RunParser(Parsers[kind.schema.parser], sheet.grid, kind.schema, fundName, sheet.styles);
    out := Some(records);
  }

  /** The merge of one parser's output into `extractedData`. */
  method FileStatement(data: Extracted, reportKey: string, out: ParseOutput) returns (d: Extracted)
    ensures d == FileOutput(data, reportKey, out)
  {
    d := data;
    if IsBalanceSheetKey(reportKey) {
      if out.Split? {
        d := FileParts(data, out.parts);
      }
    } else if out.Rows? && |out.records| > 0 {
      if reportKey !in d {
        d := d[reportKey := []];
      }
      d := d[reportKey := d[reportKey] + out.records];
    }
  }

  /** processFile's loop over the registry entries of the active category. */
  method ExtractAll(wb: Workbook, fundName: string, cat: Category) returns (extractedData: Extracted)
    ensures extractedData == ExtractedUpTo(wb, fundName, cat, |cat|)
  {
    extractedData := map[];
    var n := 0;
    while n < |cat|
      invariant n <= |cat|
      invariant extractedData == ExtractedUpTo(wb, fundName, cat, n)
    {
      var records := ParseStatement(wb, fundName, cat[n]);
      if records.Some? {
        extractedData := FileStatement(extractedData, cat[n].name, records.value);
      }
      n := n + 1;
    }
  }

  /** processFile, after the workbook has been read and decoded. */
  method ProcessFile(wb: Workbook, fileName: string, t: FundType) returns (result: Option<FileResult>)
    ensures result == FileResultOf(wb, fileName, t)
  {
    var extracted := ExtractFundName(wb);
    var fundName := if extracted.Some? && extracted.value != "" then extracted.value else StripExtension(fileName);
    var extractedData := ExtractAll(wb, fundName, ActiveConfig(t));
    result := if |extractedData| > 0 then Some(FileResult(fundName, fileName, extractedData)) else None;
  }

  /** A report key is present only with a non-empty list of records. */
  predicate NonEmptyLists(data: Extracted) {
    forall k :: k in data ==> |data[k]| > 0
  }

  lemma {:induction false} AppendPartsKeepsNonEmpty(data: Extracted, parts: seq<(string, seq<Record>)>, n: nat)
    requires n <= |parts| && NonEmptyLists(data)
    ensures NonEmptyLists(AppendParts(data, parts, n))
    ensures AppendParts(data, parts, n).Keys <= data.Keys + set i | 0 <= i < n :: parts[i].0
  {
    if n > 0 {
      AppendPartsKeepsNonEmpty(data, parts, n - 1);
    }
  }

  /** The report keys of the two halves a balance-sheet parser splits into. */
  function SplitKeys(kind: ParserKind): set<string> {
    match kind
    case BalanceSheet => {"平衡表_資產", "平衡表_負債及權益"}
    case BusinessBalanceSheet => {"資產負債表_資產", "資產負債表_負債及權益"}
    case _ => {}
  }

  /** Only the balance-sheet parsers split, each into its two named halves. */
  lemma ParserOutputShape(kind: ParserKind, data: seq<seq<string>>, schema: ReportSchema, fundName: string,
                          styles: map<(nat, nat), nat>)
    ensures var out := ParserOutput(kind, data, schema, fundName, styles);
      && (out.Split? <==> kind == BalanceSheet || kind == BusinessBalanceSheet)
      && (out.Split? ==> |out.parts| == 2 && forall i :: 0 <= i < 2 ==> out.parts[i].0 in SplitKeys(kind))
  {
  }

  /** The report keys a registry entry can file records under. */
  function StatementKeys(kind: ReportKind): set<string> {
    if kind.schema.parser !in Parsers then {}
    else if IsBalanceSheetKey(kind.name) then SplitKeys(Parsers[kind.schema.parser])
    else {kind.name}
  }

  function KeysUpTo(cat: Category, n: nat): set<string>
    requires n <= |cat|
  {
    if n == 0 then {} else KeysUpTo(cat, n - 1) + StatementKeys(cat[n - 1])
  }

  lemma StatementShape(wb: Workbook, fundName: string, kind: ReportKind, d: Extracted)
    requires NonEmptyLists(d)
    ensures var out := StatementOutput(wb, fundName, kind);
      var d' := if out.None? then d else FileOutput(d, kind.name, out.value);
      NonEmptyLists(d') && d'.Keys <= d.Keys + StatementKeys(kind)
  {
    var out := StatementOutput(wb, fundName, kind);
    if out.Some? {
      var s := FindSheet(wb, kind.schema.sheetKeyword);
      var sheet := wb[s.value];
      ParserOutputShape(Parsers[kind.schema.parser], sheet.grid, kind.schema, fundName, sheet.styles);
      FileOutputShape(d, kind, out.value);
    }
  }

  /** Filing one parser output keeps every list non-empty and adds only the
      statement's own keys. */
  lemma FileOutputShape(d: Extracted, kind: ReportKind, out: ParseOutput)
    requires NonEmptyLists(d) && kind.schema.parser in Parsers
    requires out.Split? ==> |out.parts| == 2 && forall i :: 0 <= i < 2 ==> out.parts[i].0 in SplitKeys(Parsers[kind.schema.parser])
    ensures NonEmptyLists(FileOutput(d, kind.name, out)) && FileOutput(d, kind.name, out).Keys <= d.Keys + StatementKeys(kind)
  {
    if IsBalanceSheetKey(kind.name) && out.Split? {
      AppendPartsKeepsNonEmpty(d, out.parts, |out.parts|);
    }
  }

  lemma {:induction false} ExtractedShape(wb: Workbook, fundName: string, cat: Category, n: nat)
    requires n <= |cat|
    ensures NonEmptyLists(ExtractedUpTo(wb, fundName, cat, n))
    ensures ExtractedUpTo(wb, fundName, cat, n).Keys <= KeysUpTo(cat, n)
  {
    if n > 0 {
      ExtractedShape(wb, fundName, cat, n - 1);
      StatementShape(wb, fundName, cat[n - 1], ExtractedUpTo(wb, fundName, cat, n - 1));
    }
  }

  /** processFile resolves to null exactly when no statement produced a row;
      otherwise every report key it reports holds a non-empty list, and every
      key is a statement's own key or one of its balance-sheet halves. */
  lemma ProcessFileMeaning(wb: Workbook, fileName: string, t: FundType)
    ensures var data := ExtractedUpTo(wb, FundNameFor(wb, fileName), ActiveConfig(t), |ActiveConfig(t)|);
      && (FileResultOf(wb, fileName, t).None? <==> data == map[])
      && NonEmptyLists(data)
      && data.Keys <= KeysUpTo(ActiveConfig(t), |ActiveConfig(t)|)
  {
    ExtractedShape(wb, FundNameFor(wb, fileName), ActiveConfig(t), |ActiveConfig(t)|);
  }

  /** A statement files under its own name, or under one of the halves its
      splitting parser names; a balance-sheet key is never filed under itself. */
  lemma StatementKeysNamed(kind: ReportKind)
    ensures forall k :: k in StatementKeys(kind) ==>
      k == kind.name || (kind.schema.parser in Parsers && k in SplitKeys(Parsers[kind.schema.parser]))
    ensures IsBalanceSheetKey(kind.name) ==> kind.name !in StatementKeys(kind)
  {
  }

  /** A key no entry files is not among the keys of the first n entries. */
  lemma {:induction false} KeysUpToExcludes(cat: Category, n: nat, key: string)
    requires n <= |cat|
    requires forall i :: 0 <= i < n ==> key !in StatementKeys(cat[i])
    ensures key !in KeysUpTo(cat, n)
  {
    if n > 0 {
      KeysUpToExcludes(cat, n - 1, key);
    }
  }

  /** Only the first business entry is named 損益表. */
  lemma BusinessLaterNames()
    ensures forall i :: 1 <= i < |BusinessConfig| ==> BusinessConfig[i].name != "損益表"
  {
  }

  /** The business 損益表 is not among the report keys a business file can
      file, because its parser tag is unregistered. */
  lemma ProfitLossKeyNotFiled()
    ensures "損益表" !in KeysUpTo(BusinessConfig, |BusinessConfig|)
  {
    var key := "損益表";
    forall i | 0 <= i < |BusinessConfig|
      ensures key !in StatementKeys(BusinessConfig[i])
    {
      if i == 0 {
        ProfitLossTagUnregistered();
      } else {
        BusinessLaterNames();
        StatementKeysNamed(BusinessConfig[i]);
      }
    }
    KeysUpToExcludes(BusinessConfig, |BusinessConfig|, key);
  }

  /** Because its parser tag is unregistered, the business 損益表 is never
      filed by processFile. */
  lemma BusinessProfitLossNeverFiled(wb: Workbook, fileName: string)
    ensures var data := ExtractedUpTo(wb, FundNameFor(wb, fileName), BusinessConfig, |BusinessConfig|);
      "損益表" !in data
  {
    ExtractedShape(wb, FundNameFor(wb, fileName), BusinessConfig, |BusinessConfig|);
    ProfitLossKeyNotFiled();
  }
}
