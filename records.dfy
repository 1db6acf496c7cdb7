/** The values the consolidator passes around: decoded sheets, cell values and
    the property-bag records that every statement parser emits. */
module Records {
  import opened Text

  datatype Option<T> = None | Some(value: T) {
    function GetOr(default: T): T {
      match this
      case Some(v) => v
      case None => default
    }
  }

  /** The number reader of the runtime (`parseFloat` or `Number`), applied to
      text whose thousands separators have already been removed. `None` is NaN. */
  type NumberReader = string -> Option<real>

  /** A value held under a column name of a record: the raw cell text a parser
      copied, a number an aggregation computed, or JavaScript's `undefined`
      (a cell past the end of its row, or a property that was never set). */
  datatype Value = Text(s: string) | Num(n: real) | Undefined

  /** A decoded sheet: its name, the rows of cell texts that `sheet_to_json`
      yields with `header: 1, defval: ''`, and the style indent recorded for a
      cell at (row, column), when the cell has one. */
  datatype Sheet = Sheet(name: string, grid: seq<seq<string>>, styles: map<(nat, nat), nat>)

  type Workbook = seq<Sheet>

  /** The report schema of one report kind in the registry. */
  datatype ReportSchema = ReportSchema(parser: string, sheetKeyword: string, keyColumn: string, columns: seq<string>)

  /** What a record holds under '基金名稱': the fund name, the registry entry
      itself when a balance-sheet parser receives its arguments shifted by one,
      or nothing at all for a row the aggregation synthesizes. */
  datatype Fund = FundName(name: string) | SchemaObject(schema: ReportSchema) | NoFund

  /** One extracted row: its fund, its indent level and the values under the
      column names the parser wrote. */
  datatype Record = Record(fund: Fund, indent: nat, fields: map<string, Value>)

  /** `row[i]` as the parsers copy it into a record. */
  function RawCell(row: seq<string>, i: nat): (v: Value)
    ensures i < |row| <==> v.Text?
  {
    if i < |row| then Text(row[i]) else Undefined
  }

  /** `String(row[i] || '')` */
  function CellText(row: seq<string>, i: nat): string {
    if i < |row| then row[i] else ""
  }

  /** The key cell's style indent when it is set and non-zero, otherwise 0. */
  function IndentAt(styles: map<(nat, nat), nat>, r: nat, c: nat): (k: nat)
    ensures (r, c) in styles ==> k == styles[(r, c)]
    ensures (r, c) !in styles ==> k == 0
  {
    if (r, c) in styles && styles[(r, c)] != 0 then styles[(r, c)] else 0
  }

  /** The value under `col`, or `undefined` when the record never set it. */
  function Field(r: Record, col: string): Value {
    if col in r.fields then r.fields[col] else Undefined
  }
}
