# Fund-report consolidator: a verified model of its ingestion and aggregation engine

The consolidator reads Excel workbooks of government fund statements. There is one
workbook per fund. A fund belongs to one of three categories: 作業基金 (operating),
政事基金 (governmental) or 營業基金 (business).

It extracts the rows of each statement the registry declares for the category. It
joins the rows of all the files dropped together. It then shows them per fund,
summed over all funds, or compared fund by fund for one account.

This project models, in Dafny, the part of that program that computes rather than
draws:

- **Schema registry** (`config.dfy`, module `Config`). It holds the four report kinds
  of each category. Each kind has a parser tag, a sheet keyword, a key column and
  columns.
- **Sheet, header and fund-name location** (`utils.dfy`, module `Utils`):
  - `findSheet`: the first sheet whose name contains a keyword;
  - `findHeaderRowIndex`: the best-scoring row among the first ten, with ties going
    to the earliest;
  - `getHeaderMapping`: an injective assignment of columns to header cells, where an
    exact match beats a substring match;
  - `extractFundName`: the longest cell mentioning 基金 near the top of the first
    three sheets, with statement names removed. Length is JavaScript's `.length`,
    which counts UTF-16 code units (`Text.Utf16Length`).
- **Row extractors** (`parsers.dfy`, module `Parsers`):
  - the fixed column-map parser and its wrappers;
  - the dynamic-header parser;
  - the side-by-side balance-sheet parser;
  - the stateful business profit-and-loss parser, with its non-operating flag;
  - the parser table;
  - `processFile`, which dispatches each statement and files the output per report
    key.
- **Aggregation** (`aggregate.dfy`, module `Aggregate`). This is the data logic of
  `displayAggregated`:
  - group rows by key text and sum each numeric column;
  - for business funds, round each contribution;
  - merge the central-bank investment accounts 事業投資利益 and 事業投資損失 into the
    equity-method accounts;
  - order the rows by a template.

  The same module holds the tab ordering of `createTabsAndTables`.
- **Comparison** (`compare.dfy`, module `Compare`):
  - the per-fund table of `updateComparisonView`, with its leading 合計 row;
  - `findValue` of the governmental surplus summary.
- **Page state** (`session.dfy`, module `Session`). A class `Page` holds the four
  globals of main.js: the selected fund type, the joined data, the fund names and the
  fund-to-file map. Its methods are:
  - `handleFiles`: process, drop nulls, sort by file name, then join;
  - `resetState`;
  - `displayAggregated`, which hands back the summed data it would render.

Supporting modules: `Text` (string operations of the JavaScript runtime),
`Records` (cells, records, workbooks) and `Sorting` (the stable sort by a
comparator).

**How the source's state is represented**
- A decoded sheet is a grid of cell strings plus a map from (row, column) to the
  key cell's style indent.
- A record has three parts:
  - its 基金名稱 (a `Fund`);
  - its `indent_level`;
  - a map from column name to `Value`. A `Value` is text, a number, or JavaScript's
    `undefined` for a cell past the end of its row.
- Number parsing (`parseFloat`, `Number`) is a parameter of type
  `string -> Option<real>`, applied to comma-stripped text.

**Imperative code becomes methods**
Code that loops and updates state is written as methods with loops. Each is proved
equal to a function, and the lemmas state what the source promises about that
function. Examples:
- the parsers' `for` loops pushing into `records`;
- the `reduce` accumulator of the grouping;
- the totals loop of the comparison;
- the joins of `handleFiles`.

**Behaviour the model keeps as written**
- The two balance-sheet parsers are declared `(data, fundName, sheet)` but called
  with four arguments (parsers.js:117, 209, 255).
  - Their records therefore carry the registry entry, not the fund name, as
    基金名稱 (`Fund.SchemaObject`).
  - Their key cells are read without styles, so indent is 0.
  - As a consequence, the comparison table shows '-' for every fund on a
    balance-sheet item: `Compare.ShownWithoutFundRows`.
- The business 損益表 entry names the parser tag `fixed_business_profitloss`. The
  parser table registers only `fixed_business_profitloss_stateful`.
  - That statement is therefore never extracted (`Parsers.BusinessProfitLossNeverFiled`).
  - The profit-and-loss reclassification of `displayAggregated` is modelled and proved
    in full. However, it never changes data joined from business files
    (`Session.SummaryMeaning`).

## Model

| member | source | states |
|---|---|---|
| Config.ActiveConfig | config.js:24-28 | the category table of a fund type is the one FULL_CONFIG holds under the type's name |
| Config.Lookup | main.js:132-134 | looking a base key up in a category yields nothing exactly when no kind has that name, and otherwise a kind with that name and its schema |
| Config.FullConfigCategories | config.js:24-28 | FULL_CONFIG has exactly the keys operating, governmental and business |
| Config.KeyColumnLeads | config.js:4-21 | in every kind the key column is the first column and is 科目 or 項目 |
| Config.KindsDistinct | config.js:3-22 | each category has four kinds with pairwise distinct names and pairwise distinct sheet keywords |
| Config.OneBalanceSheet | config.js:7-21 | the last kind of each category is its balance sheet and no other kind is one |
| Config.ColumnsDistinct | config.js:4-21 | the columns of every kind are pairwise distinct |
| Records.RawCell | parsers.js:29-30 | a cell reads as text exactly when its index is inside the row, and as undefined past its end |
| Records.IndentAt | parsers.js:19-24 | a record's indent is the key cell's style indent when there is one, and 0 otherwise |
| Utils.FindSheet | utils.js:4-6 | the sheet found contains the keyword and no earlier sheet does; none is found exactly when no sheet name contains it |
| Utils.Best | utils.js:37-48 | the running best is a scored row with the highest score so far, strictly better than every earlier row |
| Utils.HeaderRowIndex | utils.js:36-50 | the header row is among the first ten, non-empty, scores at least 2, scores highest and is the earliest with that score; -1 exactly when no row scores above 1 |
| Utils.RowScore | utils.js:41-46 | the loop counts the columns whose cleaned name occurs in the cleaned joined row |
| Utils.FindHeaderRowIndex | utils.js:36-50 | the loop returns the header row HeaderRowIndex describes |
| Utils.PickMeaning | utils.js:58-63 | the chosen cell is free and contains the column's cleaned name; an exact match wins and is the first exact one; otherwise the first containing cell wins; -1 exactly when no free cell contains the name |
| Utils.HeaderMapping | utils.js:52-67 | every mapped column is a requested column mapped into [start, header length), and no two columns share an index |
| Utils.MappingOfColumn | utils.js:55-64 | a column is mapped exactly when a free cell matches it at its turn, and then to the cell chosen at that turn |
| Utils.GetHeaderMapping | utils.js:52-67 | the loop filling mapping and assignedCols computes HeaderMapping |
| Utils.CandidatesMention | utils.js:14-21 | every candidate fund name comes from the first three sheets and first five rows and contains 基金 |
| Utils.NoMarkerNoCandidates | utils.js:17-18 | a row whose joined text lacks 基金 yields no candidate |
| Text.Utf16Length | utils.js:21 | `.length` counts UTF-16 code units: at least one and at most two per character |
| Utils.LongestIsFirstLongest | utils.js:19-21 | the chosen name is at least as long as every candidate, counting `.length` in UTF-16 code units, and is the first candidate of that length |
| Utils.SurrogatePairCountsTwice | utils.js:21 | a character outside the Basic Multilingual Plane counts two code units, so 𠀋基金 ties with 甲乙基金 and, coming first, is kept |
| Utils.LongestInRow | utils.js:19-22 | the loop over one row's cells keeps the candidate seen so far that is longest in UTF-16 code units |
| Utils.LongestInSheet | utils.js:14-24 | the loop over the first five rows of one sheet keeps the candidate, among the rows scanned so far, that is longest in UTF-16 code units |
| Utils.RemoveParts | utils.js:28-29 | the loop removes the first occurrence of each statement name in list order |
| Utils.FundNameCases | utils.js:8-33 | the result is null exactly when no candidate exists, and otherwise the trimmed first-longest candidate (by UTF-16 length) with statement names removed |
| Utils.ExtractFundName | utils.js:8-33 | the nested loops compute the fund name FundNameCases describes |
| Parsers.KeptRowsExact | parsers.js:9-16 | the kept rows are exactly the rows in range whose trimmed key is non-empty and not an annotation, in increasing order |
| Parsers.AnnexPolicy | parsers.js:16 | a key starting with 附註 is dropped by the fixed parser but kept by the dynamic ones |
| Parsers.ParseFixed | parsers.js:7-43 | the loop emits one record per kept row, in order |
| Parsers.FixedRecordShape | parsers.js:17-37 | a fixed record carries the fund, the key cell's indent and every configured column: the raw cell when mapped, '' when not |
| Parsers.FixedLayoutsCoverSchemas | parsers.js:128-139 | each fixed column map maps every column of its registry kind |
| Parsers.ReadMappedRows | parsers.js:53-72 | the loop over rows after the header emits one record per kept row |
| Parsers.ParseNormalTable | parsers.js:46-74 | the dynamic parser returns [] without a header row or a mapped key column, and otherwise the mapped rows after the header |
| Parsers.MappedRowsMeaning | parsers.js:53-72 | a dynamic record exists for each kept row after the header, in order, and carries only the mapped columns |
| Parsers.SecondKeyHeaderMeaning | parsers.js:79-87 | the liability side starts at the second header cell containing the key column, or at 0 when there is at most one |
| Parsers.SecondKeyColumn | parsers.js:80-86 | the loop with foundFirst finds that second cell |
| Parsers.FirstRowWith | parsers.js:93 | the data start is the first row whose start-column cell contains the identifier, or -1 when none does |
| Parsers.ParseSideBySide | parsers.js:75-116 | the loop emits one record per kept row from the data start row, with the sub-table's mapping |
| Parsers.ParseBalanceSheet | parsers.js:117-125 | the balance sheet is the asset half and the liability half under their two report keys |
| Parsers.ParseFixedBusinessBalanceSheet | parsers.js:209-219 | the business balance sheet is two fixed parses with the asset and the liability column maps |
| Parsers.BalanceColumnsMatchRegistry | parsers.js:118-119 | the columns hard-coded in the balance-sheet parsers equal the registry's |
| Parsers.NormalizeIdempotent | parsers.js:147 | normalizing a normalized name changes nothing |
| Parsers.NormalizeDropsSuffix | parsers.js:168 | a key with the non-operating suffix normalizes to the key's own normal form |
| Parsers.NonOperatingMeaning | parsers.js:149-160 | the flag is on exactly when an earlier kept row normalizes to 營業外收入, and once on it stays on |
| Parsers.ProfitLossRenaming | parsers.js:162-170 | a key is renamed exactly when the flag is on and it normalizes to one of the two equity-method accounts, and renaming keeps its normal form |
| Parsers.ParseProfitLossStateful | parsers.js:142-200 | the loop with the mutable flag emits the records ProfitLossRows describes |
| Parsers.ProfitLossTagUnregistered | parsers.js:222-232 | the business 損益表 tag is not in the parser table, and every other registry tag is |
| Parsers.RunParser | parsers.js:253-255 | each tag's parser is called as processFile calls it |
| Parsers.BalanceSheetRecordsCarrySchema | parsers.js:255 | balance-sheet records carry the registry entry as 基金名稱 and indent 0 |
| Parsers.ParserOutputShape | parsers.js:124 | only the balance-sheet parsers split, each into its two named halves |
| Parsers.FileParts | parsers.js:258-263 | the loop appends each non-empty half under its own key |
| Parsers.FileStatement | parsers.js:256-268 | a statement's output is appended under its key only when non-empty |
| Parsers.ParseStatement | parsers.js:245-255 | a statement is parsed only when its sheet is found and its tag is registered |
| Parsers.StripExtensionMeaning | parsers.js:240 | the fallback fund name strips a trailing .xlsx or .xls |
| Parsers.ExtractAll | parsers.js:241-270 | the loop over a category's entries, in declaration order, builds exactly the extracted data the fold over the registry defines |
| Parsers.ProcessFile | parsers.js:238-272 | the per-file result: fund name from the workbook or the file name, and null when nothing was extracted |
| Parsers.ProcessFileMeaning | parsers.js:257-272 | the result is null exactly when nothing was filed; every filed list is non-empty and under a key the category's statements produce |
| Parsers.StatementKeysNamed | parsers.js:257-266 | a statement files under its own report key or under one of the two halves its splitting parser returns, and a balance-sheet key is never itself filed |
| Parsers.ProfitLossKeyNotFiled | parsers.js:253-254 | 損益表 is not among the keys a business file can file |
| Parsers.BusinessProfitLossNeverFiled | parsers.js:253-254 | no business file ever files 損益表 |
| Sorting.SortByPermutation | main.js:51 | sorting neither adds nor drops results |
| Sorting.SortBySorted | main.js:51 | under a total preorder the sorted results are in order |
| Aggregate.BaseKeyOfHalf | main.js:132 | a balance-sheet half's key strips back to its statement name |
| Aggregate.BaseKeyPlain | main.js:132 | a statement name without an underscore is its own base key |
| Aggregate.Round | main.js:151 | rounding lands within half a unit of the value |
| Aggregate.AddRowValues | main.js:148-153 | the column loop adds each parsed contribution into the group row |
| Aggregate.Group | main.js:139-157 | the grouped rows are the accumulator's group rows in first-seen order, as GroupedRows defines them |
| Aggregate.Reduce | main.js:139-155 | the reduce over all rows yields the fold of AddRow over them |
| Aggregate.Accumulate | main.js:140-154 | the reduce callback performs exactly one AddRow step: rows without an account text are skipped, a new text gets a zeroed copy of its row, then the amounts are added |
| Aggregate.NumericColumns | main.js:137 | the numeric columns are the schema's columns other than the key column |
| Aggregate.GroupedOrder | main.js:139-157 | there is one row per distinct non-empty key, in first-seen order |
| Aggregate.GroupedSums | main.js:146-153 | each numeric column of a group is the sum of its rows' contributions |
| Aggregate.GroupedFirstRow | main.js:144-147 | a group row keeps the first contributing row's fund, indent and other fields |
| Aggregate.BusinessSumsWhole | main.js:151 | for business funds every sum is a whole number |
| Aggregate.ColumnSumAppend | main.js:139-155 | the sum over two batches of rows is the sum of their sums |
| Aggregate.GroupedCount | main.js:139-157 | after grouping at most one row carries any account name |
| Aggregate.FindLast | main.js:160-170 | the loop finds the last row with the account, the one the Map keeps |
| Aggregate.RemoveAccount | main.js:184 | the filter loop computes Without |
| Aggregate.WithoutMembers | main.js:184 | the filter keeps exactly the rows not named for the removed account |
| Aggregate.MergeAccount | main.js:173-185 | the merge method computes MergedAccount |
| Aggregate.MergeUnchanged | main.js:173 | the merge leaves the rows unchanged exactly when no source row exists |
| Aggregate.MergeDropsSource | main.js:184 | after the merge no row carries the source account |
| Aggregate.MergeTouchesOnlyTarget | main.js:181-184 | every row other than the target after the merge was already there |
| Aggregate.MergedRowValues | main.js:174-183 | the merged target keeps the target's fund and indent, or gets the source's indent when created, and each column is target plus source |
| Aggregate.NewTargetZero | main.js:176-177 | a created target has the account name, the source's indent and zero in every numeric column |
| Aggregate.MergeAddsIntoTarget | main.js:178-183 | the merged row is in the output under the target account's name |
| Aggregate.MergeConservesTotal | main.js:181-184 | the merge keeps every column total |
| Aggregate.MergeKeepsCount | main.js:173-185 | the merge changes no other account's row count |
| Aggregate.MergeKeepsOthers | main.js:173-185 | rows of other accounts are unchanged and in order |
| Aggregate.AccountNamesDistinct | main.js:162-165 | the four account names are pairwise distinct |
| Aggregate.ReclassifiedNoSource | main.js:173-200 | without 事業投資利益 and 事業投資損失 the rows are unchanged |
| Aggregate.ReclassifiedDropsSources | main.js:184-199 | after reclassification neither source account remains |
| Aggregate.ReclassifiedConservesTotals | main.js:173-200 | reclassification keeps every column total |
| Aggregate.ReclassifiedKeepsOthers | main.js:173-200 | rows of the other accounts are unchanged and in order |
| Aggregate.TemplateRank | main.js:203-204 | a row's rank is the first template position of its key, or the template length |
| Aggregate.TemplateOrderMeaning | main.js:202-208 | the ordered rows are a permutation, in nondecreasing template rank, template rows before the rest |
| Aggregate.SumOfPermutation | main.js:202-208 | reordering keeps every column total |
| Aggregate.SchemaColumns | main.js:136-137 | a looked-up schema's numeric columns exclude the key column and are distinct |
| Aggregate.AggregateRows | main.js:129-211 | the per-report aggregation computes AggregateReport, and yields a result exactly when the report key's base key has a schema |
| Aggregate.AggregateReportMeaning | main.js:136-211 | a report with a schema is aggregated and keeps the grouped totals; the business 損益表 is the reclassified rows reordered, others are the grouped rows |
| Aggregate.KeepShown | main.js:311-317 | a key gets a tab exactly when it is possible, has a non-empty list and a schema |
| Aggregate.TabKeysMeaning | main.js:301-317 | the tabs are the possible keys with data, in the registry's order with balance-sheet halves expanded |
| Aggregate.FiledKeysPossible | main.js:301-311 | every key processFile can file is a possible tab key |
| Compare.RowsFor | main.js:255 | the item's rows are rows of the report whose key is the item name |
| Compare.FundRow | main.js:262 | the fund row is the first row filed under the fund's name |
| Compare.FundLinesAt | main.js:262-276 | the i-th fund line is the line of the i-th fund |
| Compare.CompareItem | main.js:249-282 | the table has a 合計 row with each column's total over funds, then one line per fund in order |
| Compare.CompareTable | main.js:255-282 | the totals loop computes those totals and lines |
| Compare.AddFund | main.js:262-275 | one fund's pass shows its first row's cells or '-' and adds each into its column's total |
| Compare.FundsTotalSnoc | main.js:268-270 | a fund adds its shown value to the total |
| Compare.FundsTotalAppend | main.js:261-277 | the total over two groups of funds is the sum of their totals |
| Compare.ShownWithoutFundRows | main.js:262-266 | a fund with no row of its own shows '-' in every column |
| Compare.FundLineMeaning | main.js:262-266 | a fund line shows the fund's first row, or '-' when it has none |
| Compare.FundsTotalWithoutRows | main.js:266-268 | when '-' does not parse, funds without rows add 0 |
| Compare.ItemRow | main.js:453 | the found row is the first whose item, white space removed, matches |
| Compare.FindValueMeaning | main.js:451-459 | no matching row reads 0; otherwise the first matching row's cell is read, missing, empty and unparseable cells as 0 |
| Compare.FindValueIgnoresSpace | main.js:452-453 | trailing white space on the item name finds the same value |
| Session.Successful | main.js:47-50 | keeping only the non-null results leaves at most one result per file |
| Session.FundNamesOfAt | main.js:54 | fundNames lists the results' fund names in order |
| Session.FileMapKeys | main.js:53 | fundFileMap has exactly the fund names as keys |
| Session.FileMapLast | main.js:53 | each fund maps to the file of its last result |
| Session.JoinedMeaning | main.js:56-61 | a key is joined exactly when some file filed it, and holds every file's rows in file order |
| Session.RowsOfSnoc | main.js:56-61 | a later file's rows follow the earlier files' |
| Session.JoinedShape | main.js:56-61 | joining keeps lists non-empty and keys among the category's |
| Session.SortedShape | main.js:51 | the sorted results are processFile results of the category |
| Session.SummaryMeaning | main.js:129-211 | the summed data has exactly the keys with a schema, each the grouped rows of its report |
| Session.SummaryTotals | main.js:139-155 | each summed row holds per column the total over every fund's rows for its account |
| Session.Page.constructor | main.js:17-20 | the page starts without a fund type and without data |
| Session.Page.SelectFundType | main.js:21-30 | choosing a type sets it and keeps the rest |
| Session.Page.ResetState | main.js:75-91 | a reset clears data, names and map, and the type only on a full reset |
| Session.Page.HandleFiles | main.js:37-61 | without a type or files nothing changes; otherwise the state is the join, names and map of the sorted results |
| Session.Page.Load | main.js:47-60 | the page invariant is kept and the fund type unchanged while the state becomes the join, names and map of the sorted results |
| Session.Page.DisplayAggregated | main.js:126-212 | without a fund type nothing is summed; otherwise the summed data is SummaryData of the joined data |
| Session.Summarize | main.js:129-211 | the loop over the joined report keys builds exactly SummaryData: one entry per key with a schema |
| Session.JoinResult | main.js:57-60 | the key loop appends a file's lists to the joined data |
| Session.ProcessAll | main.js:47-50 | the loop over files collects the non-null results in file order |
| Session.JoinAll | main.js:53-61 | the three passes compute the file map, names and join |
| Session.LoadFiles | main.js:47-61 | the joined data has non-empty lists under the category's keys |

## Left out

- DOM and UI: event listeners, `renderControls`, `refreshView`, `displayIndividualFund`, the HTML of `createTabsAndTables` and `createTableHtml`, `initTabs`, `initSortableTables` and the summary-table markup. These are presentation only. `displayAggregated` hands back the data it would render, and `findValue` returns a number, not `toLocaleString` text.
- `displayComparison`'s option list (the distinct item names per report): it only builds the selector's markup.
- Export (`exportData`, `getTableDataAsJSON`): it depends on the DOM, Blob, URLs, the clock and `XLSX.writeFile`.
- FileReader, `XLSX.read`, `sheet_to_json` and `encode_cell` are foreign calls. A workbook is a sequence of sheets, each a grid of cell strings with a style-indent map.
- Cells are decoded as text, so a numeric key cell is not modelled. Grouping keys are non-empty texts.
- `Promise.all` and asynchrony: files are processed one after another, in order, which is the order `Promise.all` delivers.
- Floating point and locale:
  - numbers are exact reals;
  - `parseFloat`, `Number` and `String(number)` are parameters;
  - `Math.round` is round-half-up on reals;
  - `localeCompare` is a parameter relation on file names.
- Objects used as dictionaries are maps. Where their key order shows, the model fixes it as the source produces it for ordinary keys:
  - the rows of a summed table follow `Object.values(grouped)` (main.js:157), which for non-numeric keys is insertion order; the model uses first-seen order (`Aggregate.GroupedOrder`);
  - the tabs follow the registry (`Aggregate.TabKeys`), since `createTabsAndTables` re-orders the keys.
- The plain-object accumulator of the grouping (main.js:144) is modelled as an insertion-ordered dictionary. Two quirks of JavaScript objects are not modelled:
  - an account text naming an `Object.prototype` member (`constructor`, `toString`, `__proto__`) reads as already present, so no group row is made for it and its amounts go onto the prototype;
  - integer-like account texts ("1", "42") are enumerated before all others, in numeric order, by `Object.values`.
- `PROFIT_LOSS_ACCOUNT_ORDER` is imported but not defined in the registry file. It is a parameter.
- Aggregate.TemplateOrdered: keeps rows outside the template in their input order. The source comparator answers 1 both ways for two such rows, so the engine's order for them is unspecified. Only template-first and template order are claimed.
- Compare.NumValue: reads a number as itself, taking `parseFloat(String(n))` to give `n` back.
- Compare.CellNumber: reads a number as itself, taking `Number(String(n))` to give `n` back.
- Compare.CompareItem: requires the report key to be in the data and to have a schema. The source throws otherwise, and its selector only offers such keys.
- Session.Page.SelectFundType: requires that no type is selected. The type selector is hidden once a type is chosen and shown again only by a full reset.
- A file whose decoding throws is not modelled; `processFile` has no handler for it.
