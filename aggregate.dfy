/** The data logic of displayAggregated (main.js): rows of one report key
    grouped by key text and summed per numeric column, the business
    reclassification of the institution accounts, and the ordering against
    the profit-and-loss template; and the report-key order of
    createTabsAndTables. */
module Aggregate {
  import opened Text
  import opened Records
  import opened Config
  import opened Sorting
  import Parsers

  // --------------------------------------------------------------- base key

  const AssetSuffix: string := "_資產"
  const LiabilitySuffix: string := "_負債及權益"

  /** `reportKey.replace(/_資產|_負債及權益/, '')`: the leftmost occurrence of
      either suffix removed. */
  function BaseKey(key: string): string
    decreases |key|
  {
    if StartsWith(key, AssetSuffix) then key[|AssetSuffix|..]
    else if StartsWith(key, LiabilitySuffix) then key[|LiabilitySuffix|..]
    else if key == [] then []
    else [key[0]] + BaseKey(key[1..])
  }

  /** A report key without '_' is its own base key. */
  lemma {:induction false} BaseKeyPlain(name: string)
    requires '_' !in name
    ensures BaseKey(name) == name
    decreases |name|
  {
    if name != [] {
      assert name[0] != '_';
      assert '_' !in name[1..] by {
        assert forall i :: 0 <= i < |name[1..]| ==> name[1..][i] == name[i + 1];
      }
      BaseKeyPlain(name[1..]);
    }
  }

  /** A balance-sheet half maps back to the report key it was split from. */
  lemma {:induction false} BaseKeyOfHalf(name: string, suffix: string)
    requires '_' !in name
    requires suffix == AssetSuffix || suffix == LiabilitySuffix
    ensures BaseKey(name + suffix) == name
    decreases |name|
  {
    var s := name + suffix;
    if name == [] {
      assert s == suffix;
      assert LiabilitySuffix[1] != AssetSuffix[1];
      assert s[|suffix|..] == [];
    } else {
      assert s[0] == name[0] != '_';
      assert s[1..] == name[1..] + suffix;
      assert '_' !in name[1..] by {
        assert forall i :: 0 <= i < |name[1..]| ==> name[1..][i] == name[i + 1];
      }
      BaseKeyOfHalf(name[1..], suffix);
      assert [name[0]] + name[1..] == name;
    }
  }

  // --------------------------------------------------------------- grouping

  /** The text a row is grouped under: its key-column value when that is a
      non-empty string; other rows are dropped. */
  function GroupKey(row: Record, keyColumn: string): Option<string> {
    match Field(row, keyColumn)
    case Text(s) => if s == "" then None else Some(s)
    case _ => None
  }

  /** `Math.round`: the nearest integer, halves rounded up. */
  function Round(x: real): (r: int)
    ensures r as real - 0.5 <= x < r as real + 0.5
  {
    (x + 0.5).Floor
  }

  /** `parseFloat(String(v || '0').replace(/,/g, ''))`, rounded for the
      business category; `None` where the result is NaN. */
  function Contribution(v: Value, parse: NumberReader, business: bool): Option<real> {
    var x := match v
      case Text(s) => parse(StripCommas(if s == "" then "0" else s))
      case Undefined => parse("0")
      case Num(n) => Some(n);
    if x.None? then None
    else if business then Some(Round(x.value) as real)
    else x
  }

  /** A number held under a column, or 0 (`v || 0` on a numeric field). */
  function NumOr0(v: Value): real {
    match v
    case Num(n) => n
    case _ => 0.0
  }

  /** A new group: a copy of its first row with every numeric column set to 0. */
  function Zeroed(row: Record, cols: seq<string>): Record {
    Record(row.fund, row.indent, row.fields + map c | c in cols :: Num(0.0))
  }

  /** The group row after the first `n` numeric columns of `row` were added. */
  function AddValues(g: Record, row: Record, cols: seq<string>, n: nat, parse: NumberReader, business: bool): Record
    requires n <= |cols|
  {
    if n == 0 then g
    else
      var h := AddValues(g, row, cols, n - 1, parse, business);
      var x := Contribution(Field(row, cols[n - 1]), parse, business);
      if x.None? then h
      else Record(h.fund, h.indent, h.fields[cols[n - 1] := Num(NumOr0(Field(h, cols[n - 1])) + x.value)])
  }

  /** The `reduce` accumulator: the group texts in insertion order and the
      group row of each. */
  datatype Groups = Groups(order: seq<string>, rows: map<string, Record>)

  predicate WellFormed(g: Groups) {
    && (forall i :: 0 <= i < |g.order| ==> g.order[i] in g.rows)
    && (forall k :: k in g.rows ==> k in g.order)
  }

  /** One step of the `reduce`. */
  function AddRow(g: Groups, row: Record, keyColumn: string, cols: seq<string>, parse: NumberReader, business: bool): Groups {
    match GroupKey(row, keyColumn)
    case None => g
    case Some(k) =>
      var base := if k in g.rows then g.rows[k] else Zeroed(row, cols);
      var order := if k in g.rows then g.order else g.order + [k];
      Groups(order, g.rows[k := AddValues(base, row, cols, |cols|, parse, business)])
  }

  /** The accumulator after the first `n` rows. */
  function GroupFold(rows: seq<Record>, keyColumn: string, cols: seq<string>, n: nat, parse: NumberReader, business: bool): (g: Groups)
    requires n <= |rows|
    ensures WellFormed(g)
  {
    if n == 0 then Groups([], map[])
    else AddRow(GroupFold(rows, keyColumn, cols, n - 1, parse, business), rows[n - 1], keyColumn, cols, parse, business)
  }

  /** `Object.values(grouped)` */
  function GroupedRows(rows: seq<Record>, keyColumn: string, cols: seq<string>, parse: NumberReader, business: bool): seq<Record> {
    var g := GroupFold(rows, keyColumn, cols, |rows|, parse, business);
    seq(|g.order|, i requires 0 <= i < |g.order| => g.rows[g.order[i]])
  }

  /** The `numericCols.forEach` that adds one row into its group. */
  method AddRowValues(g: Record, row: Record, cols: seq<string>, parse: NumberReader, business: bool) returns (h: Record)
    ensures h == AddValues(g, row, cols, |cols|, parse, business)
  {
    h := g;
    var n := 0;
    while n < |cols|
      invariant n <= |cols|
      invariant h == AddValues(g, row, cols, n, parse, business)
    {
      var col := cols[n];
      var val := Contribution(Field(row, col), parse, business);
      if val.Some? {
        h := Record(h.fund, h.indent, h.fields[col := Num(NumOr0(Field(h, col)) + val.value)]);
      }
      n := n + 1;
    }
  }

  /** The `reduce` of displayAggregated followed by `Object.values`. */
  method Group(rows: seq<Record>, keyColumn: string, cols: seq<string>, parse: NumberReader, business: bool)
    returns (aggregatedRows: seq<Record>)
    ensures aggregatedRows == GroupedRows(rows, keyColumn, cols, parse, business)
  {
    var grouped := Reduce(rows, keyColumn, cols, parse, business);
    aggregatedRows := seq(|grouped.order|, j requires 0 <= j < |grouped.order| => grouped.rows[grouped.order[j]]);
  }

  /** The `reduce` itself: the group texts in first-seen order and the group
      row of each. */
  method Reduce(rows: seq<Record>, keyColumn: string, cols: seq<string>, parse: NumberReader, business: bool)
    returns (grouped: Groups)
    ensures grouped == GroupFold(rows, keyColumn, cols, |rows|, parse, business)
  {
    grouped := Groups([], map[]);
    var i := 0;
    while i < |rows|
      invariant i <= |rows|
      invariant grouped == GroupFold(rows, keyColumn, cols, i, parse, business)
    {
      grouped := Accumulate(grouped, rows[i], keyColumn, cols, parse, business);
      i := i + 1;
    }
  }

  /** The `reduce` callback: the row's amounts added into the group of its
      account text, which is created, zeroed, on the text's first row. */
  method Accumulate(acc: Groups, row: Record, keyColumn: string, cols: seq<string>, parse: NumberReader, business: bool)
    returns (r: Groups)
    ensures r == AddRow(acc, row, keyColumn, cols, parse, business)
  {
    r := acc;
    var originalKeyText := GroupKey(row, keyColumn);
    if originalKeyText.Some? {
      var key := originalKeyText.value;
      if key !in r.rows {
        r := Groups(r.order + [key], r.rows[key := Zeroed(row, cols)]);
      }
      var updated := AddRowValues(r.rows[key], row, cols, parse, business);
      r := r.(rows := r.rows[key := updated]);
    }
  }

  // ----------------------------------------------------- grouping, meaning

  /** `columns.filter(c => c !== keyColumn)` */
  function NumericColumns(schema: ReportSchema): (cols: seq<string>)
    ensures forall c :: c in cols <==> c in schema.columns && c != schema.keyColumn
    ensures Distinct(schema.columns) ==> Distinct(cols)
  {
    FilterOut(schema.columns, schema.keyColumn)
  }

  function FilterOut(cols: seq<string>, x: string): (r: seq<string>)
    ensures forall c :: c in r <==> c in cols && c != x
    ensures Distinct(cols) ==> Distinct(r)
    decreases |cols|
  {
    if cols == [] then []
    else
      var rest := FilterOut(cols[1..], x);
      assert Distinct(cols) ==> cols[0] !in cols[1..];
      if cols[0] == x then rest else [cols[0]] + rest
  }

  /** The index of the first row grouped under `k`, or |rows| when none is. */
  function FirstWith(rows: seq<Record>, keyColumn: string, k: string): (r: nat)
    ensures r <= |rows|
    ensures r < |rows| ==> GroupKey(rows[r], keyColumn) == Some(k)
    ensures forall i :: 0 <= i < r ==> GroupKey(rows[i], keyColumn) != Some(k)
  {
    FirstFrom(rows, keyColumn, k, 0)
  }

  function FirstFrom(rows: seq<Record>, keyColumn: string, k: string, i: nat): (r: nat)
    requires i <= |rows|
    ensures i <= r <= |rows|
    ensures r < |rows| ==> GroupKey(rows[r], keyColumn) == Some(k)
    ensures forall j :: i <= j < r ==> GroupKey(rows[j], keyColumn) != Some(k)
    decreases |rows| - i
  {
    if i == |rows| then i
    else if GroupKey(rows[i], keyColumn) == Some(k) then i
    else FirstFrom(rows, keyColumn, k, i + 1)
  }

  /** The reference sum of one column over the first `n` rows grouped under
      `k`: each row's contribution, unparseable values counting nothing. */
  function ColumnSum(rows: seq<Record>, keyColumn: string, k: string, col: string, n: nat,
                     parse: NumberReader, business: bool): real
    requires n <= |rows|
  {
    if n == 0 then 0.0
    else
      ColumnSum(rows, keyColumn, k, col, n - 1, parse, business)
      + (if GroupKey(rows[n - 1], keyColumn) == Some(k)
         then Contribution(Field(rows[n - 1], col), parse, business).GetOr(0.0) else 0.0)
  }

  lemma {:induction false} ColumnSumAbsent(rows: seq<Record>, keyColumn: string, k: string, col: string, n: nat,
                                           parse: NumberReader, business: bool)
    requires n <= |rows|
    requires forall i :: 0 <= i < n ==> GroupKey(rows[i], keyColumn) != Some(k)
    ensures ColumnSum(rows, keyColumn, k, col, n, parse, business) == 0.0
  {
    if n > 0 {
      ColumnSumAbsent(rows, keyColumn, k, col, n - 1, parse, business);
    }
  }

  /** Adding a row into a group row leaves its fund, its indent and every
      non-numeric field alone. */
  lemma {:induction false} AddValuesFrame(g: Record, row: Record, cols: seq<string>, n: nat, parse: NumberReader, business: bool)
    requires n <= |cols|
    ensures var h := AddValues(g, row, cols, n, parse, business);
      && h.fund == g.fund && h.indent == g.indent
      && (forall c :: c !in cols ==> Field(h, c) == Field(g, c))
      && ((forall c :: c in cols ==> c in g.fields) ==> h.fields.Keys == g.fields.Keys)
  {
    if n > 0 {
      AddValuesFrame(g, row, cols, n - 1, parse, business);
    }
  }

  /** Adding a row into a group row adds the row's contribution to each
      numeric column, when it parses. */
  lemma {:induction false} AddValuesColumns(g: Record, row: Record, cols: seq<string>, n: nat, parse: NumberReader, business: bool)
    requires n <= |cols| && Distinct(cols)
    ensures var h := AddValues(g, row, cols, n, parse, business);
      forall i :: 0 <= i < |cols| ==>
        var x := Contribution(Field(row, cols[i]), parse, business);
        Field(h, cols[i]) == if i < n && x.Some? then Num(NumOr0(Field(g, cols[i])) + x.value) else Field(g, cols[i])
  {
    if n > 0 {
      AddValuesColumns(g, row, cols, n - 1, parse, business);
      var h0 := AddValues(g, row, cols, n - 1, parse, business);
      var h := AddValues(g, row, cols, n, parse, business);
      forall i | 0 <= i < |cols|
        ensures var x := Contribution(Field(row, cols[i]), parse, business);
          Field(h, cols[i]) == if i < n && x.Some? then Num(NumOr0(Field(g, cols[i])) + x.value) else Field(g, cols[i])
      {
        if i != n - 1 {
          assert cols[i] != cols[n - 1];
          assert Field(h, cols[i]) == Field(h0, cols[i]);
        }
      }
    }
  }

  /** The groups hold exactly the keys met among the first `n` rows, in the
      order they were first met. */
  ghost predicate KeysInOrder(rows: seq<Record>, keyColumn: string, g: Groups, n: nat)
    requires n <= |rows|
  {
    && (forall k :: k in g.rows <==> FirstWith(rows, keyColumn, k) < n)
    && (forall a, b :: 0 <= a < b < |g.order| ==> FirstWith(rows, keyColumn, g.order[a]) < FirstWith(rows, keyColumn, g.order[b]))
  }

  lemma {:induction false} AddRowKeysInOrder(rows: seq<Record>, keyColumn: string, cols: seq<string>, n: nat,
                                             parse: NumberReader, business: bool, g0: Groups)
    requires 0 < n <= |rows| && WellFormed(g0) && KeysInOrder(rows, keyColumn, g0, n - 1)
    ensures KeysInOrder(rows, keyColumn, AddRow(g0, rows[n - 1], keyColumn, cols, parse, business), n)
  {
    AddRowShape(g0, rows[n - 1], keyColumn, cols, parse, business);
    KeysInOrderStep(rows, keyColumn, n, g0, AddRow(g0, rows[n - 1], keyColumn, cols, parse, business));
  }

  /** A step of the `reduce` adds the row's key, when it has one, and appends
      it to the order when it is new. */
  lemma AddRowShape(g: Groups, row: Record, keyColumn: string, cols: seq<string>, parse: NumberReader, business: bool)
    ensures var h := AddRow(g, row, keyColumn, cols, parse, business);
      var key := GroupKey(row, keyColumn);
      && h.rows.Keys == (if key.Some? then g.rows.Keys + {key.value} else g.rows.Keys)
      && h.order == (if key.Some? && key.value !in g.rows then g.order + [key.value] else g.order)
  {
  }

  lemma KeysInOrderStep(rows: seq<Record>, keyColumn: string, n: nat, g0: Groups, g: Groups)
    requires 0 < n <= |rows| && WellFormed(g0) && KeysInOrder(rows, keyColumn, g0, n - 1)
    requires var key := GroupKey(rows[n - 1], keyColumn);
      && g.rows.Keys == (if key.Some? then g0.rows.Keys + {key.value} else g0.rows.Keys)
      && g.order == (if key.Some? && key.value !in g0.rows then g0.order + [key.value] else g0.order)
    ensures KeysInOrder(rows, keyColumn, g, n)
  {
    var key := GroupKey(rows[n - 1], keyColumn);
    forall k
      ensures k in g.rows <==> FirstWith(rows, keyColumn, k) < n
    {
      if FirstWith(rows, keyColumn, k) == n - 1 {
        assert key == Some(k);
      }
    }
    if key.Some? && key.value !in g0.rows {
      var k0 := key.value;
      assert FirstWith(rows, keyColumn, k0) == n - 1;
      forall a, b | 0 <= a < b < |g.order|
        ensures FirstWith(rows, keyColumn, g.order[a]) < FirstWith(rows, keyColumn, g.order[b])
      {
        if b == |g0.order| {
          assert g.order[a] == g0.order[a] && g0.order[a] in g0.rows;
        } else {
          assert g.order[a] == g0.order[a] && g.order[b] == g0.order[b];
        }
      }
    }
  }

  /** One group per distinct non-empty key text, in the order the keys first
      occur; indent plays no part. */
  lemma {:induction false} GroupFoldOrder(rows: seq<Record>, keyColumn: string, cols: seq<string>, n: nat,
                                          parse: NumberReader, business: bool)
    requires n <= |rows|
    ensures KeysInOrder(rows, keyColumn, GroupFold(rows, keyColumn, cols, n, parse, business), n)
  {
    if n > 0 {
      GroupFoldOrder(rows, keyColumn, cols, n - 1, parse, business);
      AddRowKeysInOrder(rows, keyColumn, cols, n, parse, business, GroupFold(rows, keyColumn, cols, n - 1, parse, business));
    }
  }

  /** Every numeric column of every group is the reference sum over the
      first `n` rows. */
  ghost predicate SumsHold(rows: seq<Record>, keyColumn: string, cols: seq<string>, g: Groups, n: nat,
                           parse: NumberReader, business: bool)
    requires n <= |rows|
  {
    forall k, c :: k in g.rows && c in cols ==> Field(g.rows[k], c) == Num(ColumnSum(rows, keyColumn, k, c, n, parse, business))
  }

  lemma {:induction false} AddRowSums(rows: seq<Record>, keyColumn: string, cols: seq<string>, n: nat,
                                      parse: NumberReader, business: bool, g0: Groups)
    requires 0 < n <= |rows| && Distinct(cols)
    requires KeysInOrder(rows, keyColumn, g0, n - 1) && SumsHold(rows, keyColumn, cols, g0, n - 1, parse, business)
    ensures SumsHold(rows, keyColumn, cols, AddRow(g0, rows[n - 1], keyColumn, cols, parse, business), n, parse, business)
  {
    var g := AddRow(g0, rows[n - 1], keyColumn, cols, parse, business);
    var key := GroupKey(rows[n - 1], keyColumn);
    forall k, c | k in g.rows && c in cols
      ensures Field(g.rows[k], c) == Num(ColumnSum(rows, keyColumn, k, c, n, parse, business))
    {
      if key == Some(k) {
        AddRowSumAt(rows, keyColumn, cols, n, parse, business, g0, k, c);
      } else {
        assert g.rows[k] == g0.rows[k];
      }
    }
  }

  lemma AddRowSumAt(rows: seq<Record>, keyColumn: string, cols: seq<string>, n: nat,
                    parse: NumberReader, business: bool, g0: Groups, k: string, c: string)
    requires 0 < n <= |rows| && Distinct(cols) && c in cols
    requires GroupKey(rows[n - 1], keyColumn) == Some(k)
    requires k in g0.rows ==> Field(g0.rows[k], c) == Num(ColumnSum(rows, keyColumn, k, c, n - 1, parse, business))
    requires k !in g0.rows ==> FirstWith(rows, keyColumn, k) >= n - 1
    ensures Field(AddRow(g0, rows[n - 1], keyColumn, cols, parse, business).rows[k], c)
      == Num(ColumnSum(rows, keyColumn, k, c, n, parse, business))
  {
    var base := if k in g0.rows then g0.rows[k] else Zeroed(rows[n - 1], cols);
    assert AddRow(g0, rows[n - 1], keyColumn, cols, parse, business).rows[k]
      == AddValues(base, rows[n - 1], cols, |cols|, parse, business);
    var before := ColumnSum(rows, keyColumn, k, c, n - 1, parse, business);
    if k !in g0.rows {
      ColumnSumAbsent(rows, keyColumn, k, c, n - 1, parse, business);
      assert Field(base, c) == Num(0.0);
    }
    AddValuesAt(base, rows[n - 1], cols, c, parse, business);
  }

  /** Adding a row changes a numeric column by the row's contribution. */
  lemma AddValuesAt(g: Record, row: Record, cols: seq<string>, c: string, parse: NumberReader, business: bool)
    requires Distinct(cols) && c in cols
    ensures var x := Contribution(Field(row, c), parse, business);
      Field(AddValues(g, row, cols, |cols|, parse, business), c)
        == if x.Some? then Num(NumOr0(Field(g, c)) + x.value) else Field(g, c)
  {
    AddValuesColumns(g, row, cols, |cols|, parse, business);
    var i :| 0 <= i < |cols| && cols[i] == c;
  }

  /** Each numeric column of a group is the reference sum of that column over
      the rows grouped under its key. */
  lemma {:induction false} GroupFoldSums(rows: seq<Record>, keyColumn: string, cols: seq<string>, n: nat,
                                         parse: NumberReader, business: bool)
    requires n <= |rows| && Distinct(cols)
    ensures SumsHold(rows, keyColumn, cols, GroupFold(rows, keyColumn, cols, n, parse, business), n, parse, business)
  {
    if n > 0 {
      GroupFoldSums(rows, keyColumn, cols, n - 1, parse, business);
      GroupFoldOrder(rows, keyColumn, cols, n - 1, parse, business);
      AddRowSums(rows, keyColumn, cols, n, parse, business, GroupFold(rows, keyColumn, cols, n - 1, parse, business));
    }
  }

  /** Every group row is a copy of the first row grouped under its key with
      the numeric columns added. */
  ghost predicate CopiesFirstRow(rows: seq<Record>, keyColumn: string, cols: seq<string>, g: Groups) {
    forall k :: k in g.rows ==>
      var f := FirstWith(rows, keyColumn, k);
      f < |rows| && CopyOf(g.rows[k], rows[f], cols)
  }

  /** The copy property of one group row. */
  ghost predicate CopyOf(g: Record, first: Record, cols: seq<string>) {
    && g.fund == first.fund
    && g.indent == first.indent
    && (forall c :: c in g.fields <==> c in first.fields || c in cols)
    && (forall c :: c !in cols ==> Field(g, c) == Field(first, c))
  }

  lemma AddValuesCopy(base: Record, row: Record, first: Record, cols: seq<string>, parse: NumberReader, business: bool)
    requires CopyOf(base, first, cols)
    ensures CopyOf(AddValues(base, row, cols, |cols|, parse, business), first, cols)
  {
    AddValuesFrame(base, row, cols, |cols|, parse, business);
  }

  lemma ZeroedCopy(row: Record, cols: seq<string>)
    ensures CopyOf(Zeroed(row, cols), row, cols)
  {
  }

  lemma {:induction false} AddRowCopies(rows: seq<Record>, keyColumn: string, cols: seq<string>, n: nat,
                                        parse: NumberReader, business: bool, g0: Groups)
    requires 0 < n <= |rows|
    requires KeysInOrder(rows, keyColumn, g0, n - 1) && CopiesFirstRow(rows, keyColumn, cols, g0)
    ensures CopiesFirstRow(rows, keyColumn, cols, AddRow(g0, rows[n - 1], keyColumn, cols, parse, business))
  {
    var g := AddRow(g0, rows[n - 1], keyColumn, cols, parse, business);
    var key := GroupKey(rows[n - 1], keyColumn);
    if key.Some? {
      var k := key.value;
      var f := FirstWith(rows, keyColumn, k);
      var base := if k in g0.rows then g0.rows[k] else Zeroed(rows[n - 1], cols);
      assert g.rows[k] == AddValues(base, rows[n - 1], cols, |cols|, parse, business);
      if k !in g0.rows {
        assert f == n - 1;
        ZeroedCopy(rows[n - 1], cols);
      }
      assert CopyOf(base, rows[f], cols);
      AddValuesCopy(base, rows[n - 1], rows[f], cols, parse, business);
      forall k2 | k2 in g.rows
        ensures var f2 := FirstWith(rows, keyColumn, k2); f2 < |rows| && CopyOf(g.rows[k2], rows[f2], cols)
      {
        if k2 != k {
          assert g.rows[k2] == g0.rows[k2];
        }
      }
    }
  }

  /** A group row is a copy of the first row grouped under its key: same
      fund, same indent, same non-numeric fields, plus every numeric column. */
  lemma {:induction false} GroupFoldFirstRow(rows: seq<Record>, keyColumn: string, cols: seq<string>, n: nat,
                                             parse: NumberReader, business: bool)
    requires n <= |rows|
    ensures CopiesFirstRow(rows, keyColumn, cols, GroupFold(rows, keyColumn, cols, n, parse, business))
  {
    if n > 0 {
      GroupFoldFirstRow(rows, keyColumn, cols, n - 1, parse, business);
      GroupFoldOrder(rows, keyColumn, cols, n - 1, parse, business);
      AddRowCopies(rows, keyColumn, cols, n, parse, business, GroupFold(rows, keyColumn, cols, n - 1, parse, business));
    }
  }

  /** For the business category every group sum is a whole number, since
      each contribution is rounded before it is added. */
  lemma {:induction false} BusinessSumsWhole(rows: seq<Record>, keyColumn: string, k: string, col: string, n: nat, parse: NumberReader)
    requires n <= |rows|
    ensures ColumnSum(rows, keyColumn, k, col, n, parse, true) == ColumnSum(rows, keyColumn, k, col, n, parse, true).Floor as real
  {
    if n > 0 {
      BusinessSumsWhole(rows, keyColumn, k, col, n - 1, parse);
      var a := ColumnSum(rows, keyColumn, k, col, n - 1, parse, true).Floor;
      var x := Contribution(Field(rows[n - 1], col), parse, true);
      var b: int := if GroupKey(rows[n - 1], keyColumn) == Some(k) && x.Some? then Round(Contribution(Field(rows[n - 1], col), parse, false).value) else 0;
      assert ColumnSum(rows, keyColumn, k, col, n, parse, true) == (a + b) as real;
    }
  }

  lemma {:induction false} ColumnSumPrefix(rows: seq<Record>, more: seq<Record>, keyColumn: string, k: string, col: string, n: nat,
                                           parse: NumberReader, business: bool)
    requires n <= |rows|
    ensures ColumnSum(rows + more, keyColumn, k, col, n, parse, business) == ColumnSum(rows, keyColumn, k, col, n, parse, business)
  {
    if n > 0 {
      ColumnSumPrefix(rows, more, keyColumn, k, col, n - 1, parse, business);
      assert (rows + more)[n - 1] == rows[n - 1];
    }
  }

  lemma {:induction false} ColumnSumSuffix(rows: seq<Record>, more: seq<Record>, keyColumn: string, k: string, col: string, m: nat,
                                           parse: NumberReader, business: bool)
    requires m <= |more|
    ensures ColumnSum(rows + more, keyColumn, k, col, |rows| + m, parse, business)
      == ColumnSum(rows, keyColumn, k, col, |rows|, parse, business) + ColumnSum(more, keyColumn, k, col, m, parse, business)
  {
    if m == 0 {
      ColumnSumPrefix(rows, more, keyColumn, k, col, |rows|, parse, business);
    } else {
      ColumnSumSuffix(rows, more, keyColumn, k, col, m - 1, parse, business);
      assert (rows + more)[|rows| + m - 1] == more[m - 1];
    }
  }

  /** Group sums are additive over concatenation: summing the rows of several
      files together gives the sum of the per-file sums. */
  lemma ColumnSumAppend(rows: seq<Record>, more: seq<Record>, keyColumn: string, k: string, col: string,
                        parse: NumberReader, business: bool)
    ensures ColumnSum(rows + more, keyColumn, k, col, |rows + more|, parse, business)
      == ColumnSum(rows, keyColumn, k, col, |rows|, parse, business) + ColumnSum(more, keyColumn, k, col, |more|, parse, business)
  {
    ColumnSumSuffix(rows, more, keyColumn, k, col, |more|, parse, business);
  }

  /** The aggregated rows are the group rows in key order, each carrying its
      own key. */
  lemma GroupedKeys(rows: seq<Record>, keyColumn: string, cols: seq<string>, parse: NumberReader, business: bool)
    requires keyColumn !in cols
    ensures var g := GroupFold(rows, keyColumn, cols, |rows|, parse, business);
      var out := GroupedRows(rows, keyColumn, cols, parse, business);
      && |out| == |g.order|
      && (forall i :: 0 <= i < |out| ==> out[i] == g.rows[g.order[i]] && GroupKey(out[i], keyColumn) == Some(g.order[i]))
  {
    var g := GroupFold(rows, keyColumn, cols, |rows|, parse, business);
    GroupFoldFirstRow(rows, keyColumn, cols, |rows|, parse, business);
    var out := GroupedRows(rows, keyColumn, cols, parse, business);
    forall i | 0 <= i < |out|
      ensures GroupKey(out[i], keyColumn) == Some(g.order[i])
    {
      var f := FirstWith(rows, keyColumn, g.order[i]);
      assert CopyOf(g.rows[g.order[i]], rows[f], cols);
      assert Field(out[i], keyColumn) == Field(rows[f], keyColumn);
    }
  }

  /** Aggregation yields one row per distinct non-empty key text, in the order
      the keys first occur; rows with an empty key are dropped. */
  lemma GroupedOrder(rows: seq<Record>, keyColumn: string, cols: seq<string>, parse: NumberReader, business: bool)
    requires keyColumn !in cols
    ensures var out := GroupedRows(rows, keyColumn, cols, parse, business);
      && (forall i :: 0 <= i < |out| ==> GroupKey(out[i], keyColumn).Some?)
      && (forall i, j :: 0 <= i < j < |out| ==>
            FirstWith(rows, keyColumn, GroupKey(out[i], keyColumn).value) < FirstWith(rows, keyColumn, GroupKey(out[j], keyColumn).value))
      && (forall i :: 0 <= i < |out| ==> FirstWith(rows, keyColumn, GroupKey(out[i], keyColumn).value) < |rows|)
      && (forall r, k :: r in rows && GroupKey(r, keyColumn) == Some(k) ==> exists i :: 0 <= i < |out| && GroupKey(out[i], keyColumn) == Some(k))
  {
    var g := GroupFold(rows, keyColumn, cols, |rows|, parse, business);
    GroupFoldOrder(rows, keyColumn, cols, |rows|, parse, business);
    GroupedKeys(rows, keyColumn, cols, parse, business);
    var out := GroupedRows(rows, keyColumn, cols, parse, business);
    forall r, k | r in rows && GroupKey(r, keyColumn) == Some(k)
      ensures exists i :: 0 <= i < |out| && GroupKey(out[i], keyColumn) == Some(k)
    {
      var j :| 0 <= j < |rows| && rows[j] == r;
      assert FirstWith(rows, keyColumn, k) <= j;
      assert k in g.rows;
      var i :| 0 <= i < |g.order| && g.order[i] == k;
      assert GroupKey(out[i], keyColumn) == Some(k);
    }
  }

  /** Each numeric column of an aggregated row is the reference sum of that
      column over the rows with its key. */
  lemma GroupedSums(rows: seq<Record>, keyColumn: string, cols: seq<string>, parse: NumberReader, business: bool)
    requires keyColumn !in cols && Distinct(cols)
    ensures var out := GroupedRows(rows, keyColumn, cols, parse, business);
      forall i, c :: 0 <= i < |out| && c in cols && GroupKey(out[i], keyColumn).Some? ==>
        Field(out[i], c) == Num(ColumnSum(rows, keyColumn, GroupKey(out[i], keyColumn).value, c, |rows|, parse, business))
  {
    GroupFoldSums(rows, keyColumn, cols, |rows|, parse, business);
    GroupedKeys(rows, keyColumn, cols, parse, business);
  }

  /** An aggregated row keeps the first contributing row's fund, indent and
      non-numeric fields, and holds exactly that row's fields plus the numeric
      columns. */
  lemma GroupedFirstRow(rows: seq<Record>, keyColumn: string, cols: seq<string>, parse: NumberReader, business: bool)
    requires keyColumn !in cols
    ensures var out := GroupedRows(rows, keyColumn, cols, parse, business);
      forall i :: 0 <= i < |out| && GroupKey(out[i], keyColumn).Some? ==>
        var f := FirstWith(rows, keyColumn, GroupKey(out[i], keyColumn).value);
        f < |rows| && CopyOf(out[i], rows[f], cols)
  {
    GroupFoldFirstRow(rows, keyColumn, cols, |rows|, parse, business);
    GroupedKeys(rows, keyColumn, cols, parse, business);
  }

  // ------------------------------------------------------- reclassification

  /** The central-bank institution accounts folded into the equity-method
      accounts of the business profit-and-loss summary. */
  const ProfitSource: string := "事業投資利益"
  const LossSource: string := "事業投資損失"

  /** `new Map(rows.map(r => [r[keyColumn], r])).get(name)`: the index of the
      last row keyed by the text `name` (later entries overwrite earlier
      ones), or -1. */
  function LastWith(rows: seq<Record>, keyColumn: string, name: string): (r: int)
    ensures -1 <= r < |rows|
    ensures r >= 0 ==> Field(rows[r], keyColumn) == Text(name)
    ensures forall i :: r < i < |rows| ==> Field(rows[i], keyColumn) != Text(name)
    decreases |rows|
  {
    if rows == [] then -1
    else if Field(rows[|rows| - 1], keyColumn) == Text(name) then |rows| - 1
    else LastWith(rows[..|rows| - 1], keyColumn, name)
  }

  /** The row created for a missing target account: the account name, the
      source row's indent and 0 in every numeric column; no fund name. */
  function NewTarget(keyColumn: string, target: string, indent: nat, cols: seq<string>): Record {
    Record(NoFund, indent, map[keyColumn := Text(target)] + map c | c in cols :: Num(0.0))
  }

  /** `target[col] = (target[col] || 0) + (source[col] || 0)` over the first
      `n` numeric columns. */
  function AddInto(t: Record, src: Record, cols: seq<string>, n: nat): Record
    requires n <= |cols|
  {
    if n == 0 then t
    else
      var h := AddInto(t, src, cols, n - 1);
      Record(h.fund, h.indent, h.fields[cols[n - 1] := Num(NumOr0(Field(h, cols[n - 1])) + NumOr0(Field(src, cols[n - 1])))])
  }

  /** `rows.filter(r => r[keyColumn] !== name)` */
  function Without(rows: seq<Record>, keyColumn: string, name: string): (r: seq<Record>)
    ensures |r| <= |rows|
    decreases |rows|
  {
    if rows == [] then []
    else
      var last := rows[|rows| - 1];
      Without(rows[..|rows| - 1], keyColumn, name) + (if Field(last, keyColumn) != Text(name) then [last] else [])
  }

  /** The filter keeps exactly the rows not keyed by `name`. */
  lemma {:induction false} WithoutMembers(rows: seq<Record>, keyColumn: string, name: string)
    ensures forall x :: x in Without(rows, keyColumn, name) <==> x in rows && Field(x, keyColumn) != Text(name)
    decreases |rows|
  {
    if rows != [] {
      var init := rows[..|rows| - 1];
      WithoutMembers(init, keyColumn, name);
      assert rows == init + [rows[|rows| - 1]];
    }
  }

  /** One merge of displayAggregated: when a `source` row exists, its numeric
      columns are added into the `target` row (created and appended first when
      there is none), and then every `source` row is removed. */
  function MergedAccount(rows: seq<Record>, keyColumn: string, cols: seq<string>, source: string, target: string): seq<Record> {
    var s := LastWith(rows, keyColumn, source);
    if s < 0 then rows
    else
      var t := LastWith(rows, keyColumn, target);
      var base := if t < 0 then rows + [NewTarget(keyColumn, target, rows[s].indent, cols)] else rows;
      var ti := if t < 0 then |rows| else t;
      Without(base[ti := AddInto(base[ti], rows[s], cols, |cols|)], keyColumn, source)
  }

  /** The profit merge followed by the loss merge. The source looks the loss
      rows up before the profit merge; since the four account names differ,
      the profit merge neither adds, removes nor changes a loss row, so the
      lookup finds the same rows either way. */
  function Reclassified(rows: seq<Record>, keyColumn: string, cols: seq<string>): seq<Record> {
    var afterProfit := MergedAccount(rows, keyColumn, cols, ProfitSource, Parsers.EquityProfit);
    MergedAccount(afterProfit, keyColumn, cols, LossSource, Parsers.EquityLoss)
  }

  /** The map lookup: a scan that remembers the last matching row. */
  method FindLast(rows: seq<Record>, keyColumn: string, name: string) returns (r: int)
    ensures r == LastWith(rows, keyColumn, name)
  {
    r := -1;
    var i := 0;
    while i < |rows|
      invariant i <= |rows|
      invariant r == LastWith(rows[..i], keyColumn, name)
    {
      assert rows[..i + 1][..i] == rows[..i];
      if Field(rows[i], keyColumn) == Text(name) {
        r := i;
      }
      i := i + 1;
    }
    assert rows[..|rows|] == rows;
  }

  /** The `filter` that drops every row keyed by `name`. */
  method RemoveAccount(rows: seq<Record>, keyColumn: string, name: string) returns (out: seq<Record>)
    ensures out == Without(rows, keyColumn, name)
  {
    out := [];
    var i := 0;
    while i < |rows|
      invariant i <= |rows|
      invariant out == Without(rows[..i], keyColumn, name)
    {
      assert rows[..i + 1][..i] == rows[..i];
      if Field(rows[i], keyColumn) != Text(name) {
        out := out + [rows[i]];
      }
      i := i + 1;
    }
    assert rows[..|rows|] == rows;
  }

  /** One merge, as displayAggregated performs it on `aggregatedRows`. */
  method MergeAccount(rows: seq<Record>, keyColumn: string, cols: seq<string>, source: string, target: string)
    returns (out: seq<Record>)
    ensures out == MergedAccount(rows, keyColumn, cols, source, target)
  {
    var sourceRow := FindLast(rows, keyColumn, source);
    var targetRow := FindLast(rows, keyColumn, target);
    out := rows;
    if sourceRow >= 0 {
      var ti := targetRow;
      if targetRow < 0 {
        out := out + [NewTarget(keyColumn, target, rows[sourceRow].indent, cols)];
        ti := |rows|;
      }
      var merged := out[ti];
      var n := 0;
      while n < |cols|
        invariant n <= |cols|
        invariant merged == AddInto(out[ti], rows[sourceRow], cols, n)
      {
        var col := cols[n];
        merged := Record(merged.fund, merged.indent, merged.fields[col := Num(NumOr0(Field(merged, col)) + NumOr0(Field(rows[sourceRow], col)))]);
        n := n + 1;
      }
      out := RemoveAccount(out[ti := merged], keyColumn, source);
    }
  }

  // ----------------------------------------------- reclassification, meaning

  /** The sum of `f` over the rows. */
  function SumOf(rows: seq<Record>, f: Record -> real): real
    decreases |rows|
  {
    if rows == [] then 0.0 else SumOf(rows[..|rows| - 1], f) + f(rows[|rows| - 1])
  }

  /** A numeric column as the merge reads it, `row[col] || 0`. */
  function Amount(col: string): Record -> real {
    r => NumOr0(Field(r, col))
  }

  /** `f` on the rows keyed by `name`, 0 on the others. */
  function KeyedBy(keyColumn: string, name: string, f: Record -> real): Record -> real {
    r => if Field(r, keyColumn) == Text(name) then f(r) else 0.0
  }

  function One(): Record -> real {
    r => 1.0
  }

  /** How many rows are keyed by `name`. */
  function Count(rows: seq<Record>, keyColumn: string, name: string): real {
    SumOf(rows, KeyedBy(keyColumn, name, One()))
  }

  lemma {:induction false} SumOfAppend(xs: seq<Record>, ys: seq<Record>, f: Record -> real)
    ensures SumOf(xs + ys, f) == SumOf(xs, f) + SumOf(ys, f)
    decreases |ys|
  {
    if ys == [] {
      assert xs + ys == xs;
    } else {
      SumOfAppend(xs, ys[..|ys| - 1], f);
      assert (xs + ys)[..|xs + ys| - 1] == xs + ys[..|ys| - 1];
    }
  }

  lemma SumOfUpdate(xs: seq<Record>, i: nat, y: Record, f: Record -> real)
    requires i < |xs|
    ensures SumOf(xs[i := y], f) == SumOf(xs, f) - f(xs[i]) + f(y)
  {
    assert xs == (xs[..i] + [xs[i]]) + xs[i + 1..];
    assert xs[i := y] == (xs[..i] + [y]) + xs[i + 1..];
    SumOfAppend(xs[..i] + [xs[i]], xs[i + 1..], f);
    SumOfAppend(xs[..i] + [y], xs[i + 1..], f);
    SumOfAppend(xs[..i], [xs[i]], f);
    SumOfAppend(xs[..i], [y], f);
    assert [xs[i]][..0] == [] && [y][..0] == [];
  }

  lemma {:induction false} SumOfWithout(xs: seq<Record>, keyColumn: string, name: string, f: Record -> real)
    ensures SumOf(Without(xs, keyColumn, name), f) == SumOf(xs, f) - SumOf(xs, KeyedBy(keyColumn, name, f))
    decreases |xs|
  {
    if xs != [] {
      var init := xs[..|xs| - 1];
      var last := xs[|xs| - 1];
      SumOfWithout(init, keyColumn, name, f);
      var kept := if Field(last, keyColumn) != Text(name) then [last] else [];
      SumOfAppend(Without(init, keyColumn, name), kept, f);
      assert kept != [] ==> kept[..0] == [];
    }
  }

  lemma {:induction false} SumOfZero(xs: seq<Record>, f: Record -> real)
    requires forall r :: r in xs ==> f(r) == 0.0
    ensures SumOf(xs, f) == 0.0
    decreases |xs|
  {
    if xs != [] {
      SumOfZero(xs[..|xs| - 1], f);
    }
  }

  lemma {:induction false} CountNonNegative(xs: seq<Record>, keyColumn: string, name: string)
    ensures Count(xs, keyColumn, name) >= 0.0
    decreases |xs|
  {
    if xs != [] {
      CountNonNegative(xs[..|xs| - 1], keyColumn, name);
    }
  }

  /** With at most one row keyed by `name`, summing over those rows reads
      that one row. */
  lemma {:induction false} SumOfSingle(xs: seq<Record>, keyColumn: string, name: string, f: Record -> real)
    requires Count(xs, keyColumn, name) <= 1.0
    ensures var s := LastWith(xs, keyColumn, name);
      SumOf(xs, KeyedBy(keyColumn, name, f)) == if s < 0 then 0.0 else f(xs[s])
    decreases |xs|
  {
    if xs != [] {
      var init := xs[..|xs| - 1];
      CountNonNegative(init, keyColumn, name);
      if Field(xs[|xs| - 1], keyColumn) == Text(name) {
        SumOfUncounted(init, keyColumn, name, f);
      } else {
        SumOfSingle(init, keyColumn, name, f);
      }
    }
  }

  /** With no row keyed by `name`, summing over those rows gives 0. */
  lemma {:induction false} SumOfUncounted(xs: seq<Record>, keyColumn: string, name: string, f: Record -> real)
    requires Count(xs, keyColumn, name) <= 0.0
    ensures SumOf(xs, KeyedBy(keyColumn, name, f)) == 0.0
    decreases |xs|
  {
    if xs != [] {
      CountNonNegative(xs[..|xs| - 1], keyColumn, name);
      SumOfUncounted(xs[..|xs| - 1], keyColumn, name, f);
    }
  }

  /** Column `i` of a merged row is the target's value plus the source's. */
  lemma {:induction false} AddIntoColumns(t: Record, src: Record, cols: seq<string>, n: nat)
    requires n <= |cols| && Distinct(cols)
    ensures var h := AddInto(t, src, cols, n);
      && h.fund == t.fund && h.indent == t.indent
      && (forall c :: c !in cols ==> Field(h, c) == Field(t, c))
      && (forall i :: 0 <= i < n ==> Field(h, cols[i]) == Num(NumOr0(Field(t, cols[i])) + NumOr0(Field(src, cols[i]))))
      && (forall i :: n <= i < |cols| ==> Field(h, cols[i]) == Field(t, cols[i]))
  {
    if n > 0 {
      AddIntoColumns(t, src, cols, n - 1);
      var h0 := AddInto(t, src, cols, n - 1);
      var h := AddInto(t, src, cols, n);
      forall i | 0 <= i < |cols| && i != n - 1
        ensures Field(h, cols[i]) == Field(h0, cols[i])
      {
        assert cols[i] != cols[n - 1];
      }
    }
  }

  /** The parts of one merge, named for the lemmas below. */
  datatype MergeParts = MergeParts(s: int, t: int, base: seq<Record>, ti: nat, merged: Record)

  function PartsOf(rows: seq<Record>, keyColumn: string, cols: seq<string>, source: string, target: string): (p: MergeParts)
    requires LastWith(rows, keyColumn, source) >= 0
    ensures 0 <= p.s < |rows| && p.ti < |p.base|
  {
    var s := LastWith(rows, keyColumn, source);
    var t := LastWith(rows, keyColumn, target);
    var base := if t < 0 then rows + [NewTarget(keyColumn, target, rows[s].indent, cols)] else rows;
    var ti := if t < 0 then |rows| else t;
    MergeParts(s, t, base, ti, AddInto(base[ti], rows[s], cols, |cols|))
  }

  lemma PartsOfMerge(rows: seq<Record>, keyColumn: string, cols: seq<string>, source: string, target: string)
    requires LastWith(rows, keyColumn, source) >= 0
    ensures var p := PartsOf(rows, keyColumn, cols, source, target);
      MergedAccount(rows, keyColumn, cols, source, target) == Without(p.base[p.ti := p.merged], keyColumn, source)
  {
  }

  /** The merged row is keyed by the target account. */
  lemma MergedRowKey(rows: seq<Record>, keyColumn: string, cols: seq<string>, source: string, target: string)
    requires LastWith(rows, keyColumn, source) >= 0 && keyColumn !in cols && Distinct(cols)
    ensures var p := PartsOf(rows, keyColumn, cols, source, target);
      && Field(p.base[p.ti], keyColumn) == Text(target)
      && Field(p.merged, keyColumn) == Text(target)
      && (p.t < 0 ==> p.base == rows + [p.base[p.ti]])
      && (p.t >= 0 ==> p.base == rows)
  {
    var p := PartsOf(rows, keyColumn, cols, source, target);
    AddIntoColumns(p.base[p.ti], rows[p.s], cols, |cols|);
  }

  /** After a merge no row is keyed by the source account. */
  lemma MergeDropsSource(rows: seq<Record>, keyColumn: string, cols: seq<string>, source: string, target: string)
    ensures forall r :: r in MergedAccount(rows, keyColumn, cols, source, target) ==> Field(r, keyColumn) != Text(source)
  {
    if LastWith(rows, keyColumn, source) >= 0 {
      var p := PartsOf(rows, keyColumn, cols, source, target);
      PartsOfMerge(rows, keyColumn, cols, source, target);
      WithoutMembers(p.base[p.ti := p.merged], keyColumn, source);
    }
  }

  /** A merge changes the rows exactly when a source row exists. */
  lemma MergeUnchanged(rows: seq<Record>, keyColumn: string, cols: seq<string>, source: string, target: string)
    ensures MergedAccount(rows, keyColumn, cols, source, target) == rows
      <==> forall r :: r in rows ==> Field(r, keyColumn) != Text(source)
  {
    MergeDropsSource(rows, keyColumn, cols, source, target);
    var s := LastWith(rows, keyColumn, source);
    if s >= 0 {
      assert rows[s] in rows;
    }
  }

  /** Every row a merge yields that is not keyed by the target account was
      already there. */
  lemma MergeTouchesOnlyTarget(rows: seq<Record>, keyColumn: string, cols: seq<string>, source: string, target: string)
    requires keyColumn !in cols && Distinct(cols)
    ensures forall r :: r in MergedAccount(rows, keyColumn, cols, source, target) && Field(r, keyColumn) != Text(target) ==> r in rows
  {
    if LastWith(rows, keyColumn, source) >= 0 {
      var p := PartsOf(rows, keyColumn, cols, source, target);
      MergedRowKey(rows, keyColumn, cols, source, target);
      var updated := p.base[p.ti := p.merged];
      PartsOfMerge(rows, keyColumn, cols, source, target);
      WithoutMembers(updated, keyColumn, source);
      forall r | r in updated && Field(r, keyColumn) != Text(target)
        ensures r in rows
      {
        var i :| 0 <= i < |updated| && updated[i] == r;
        assert i != p.ti;
        assert r == p.base[i];
      }
    }
  }

  /** The merged row: the target's fund and indent (for a created target, no
      fund and the source's indent), and in every numeric column the target's
      previous value plus the source's. */
  lemma MergedRowValues(rows: seq<Record>, keyColumn: string, cols: seq<string>, source: string, target: string)
    requires keyColumn !in cols && Distinct(cols)
    requires LastWith(rows, keyColumn, source) >= 0
    ensures var p := PartsOf(rows, keyColumn, cols, source, target);
      var r := p.merged;
      && (p.t >= 0 ==> r.fund == rows[p.t].fund && r.indent == rows[p.t].indent)
      && (p.t < 0 ==> r.fund == NoFund && r.indent == rows[p.s].indent)
      && forall i :: 0 <= i < |cols| ==>
           Field(r, cols[i]) == Num((if p.t >= 0 then NumOr0(Field(rows[p.t], cols[i])) else 0.0) + NumOr0(Field(rows[p.s], cols[i])))
  {
    var p := PartsOf(rows, keyColumn, cols, source, target);
    var before := p.base[p.ti];
    AddIntoColumns(before, rows[p.s], cols, |cols|);
    if p.t < 0 {
      NewTargetZero(keyColumn, target, rows[p.s].indent, cols);
      assert before == NewTarget(keyColumn, target, rows[p.s].indent, cols);
    } else {
      assert before == rows[p.t];
    }
  }

  lemma NewTargetZero(keyColumn: string, target: string, indent: nat, cols: seq<string>)
    requires keyColumn !in cols
    ensures var r := NewTarget(keyColumn, target, indent, cols);
      && r.fund == NoFund && r.indent == indent && Field(r, keyColumn) == Text(target)
      && forall i :: 0 <= i < |cols| ==> NumOr0(Field(r, cols[i])) == 0.0
  {
  }

  /** After a merge the target row holds, in every numeric column, its
      previous value (0 when it was created) plus the source row's. */
  lemma MergeAddsIntoTarget(rows: seq<Record>, keyColumn: string, cols: seq<string>, source: string, target: string)
    requires source != target && keyColumn !in cols && Distinct(cols)
    requires LastWith(rows, keyColumn, source) >= 0
    ensures var p := PartsOf(rows, keyColumn, cols, source, target);
      && p.merged in MergedAccount(rows, keyColumn, cols, source, target)
      && Field(p.merged, keyColumn) == Text(target)
  {
    var p := PartsOf(rows, keyColumn, cols, source, target);
    MergedRowKey(rows, keyColumn, cols, source, target);
    var updated := p.base[p.ti := p.merged];
    assert updated[p.ti] == p.merged;
    PartsOfMerge(rows, keyColumn, cols, source, target);
    WithoutMembers(updated, keyColumn, source);
  }

  /** The sum of any per-row quantity across one merge: the source rows'
      share leaves, the target row's share changes to the merged row's. */
  lemma MergeSum(rows: seq<Record>, keyColumn: string, cols: seq<string>, source: string, target: string, f: Record -> real)
    requires source != target && keyColumn !in cols && Distinct(cols)
    requires LastWith(rows, keyColumn, source) >= 0
    ensures var p := PartsOf(rows, keyColumn, cols, source, target);
      SumOf(MergedAccount(rows, keyColumn, cols, source, target), f)
        == SumOf(rows, f) + (if p.t < 0 then f(p.base[p.ti]) else 0.0) - f(p.base[p.ti]) + f(p.merged)
           - SumOf(rows, KeyedBy(keyColumn, source, f))
  {
    var p := PartsOf(rows, keyColumn, cols, source, target);
    PartsOfMerge(rows, keyColumn, cols, source, target);
    MergedRowKey(rows, keyColumn, cols, source, target);
    var g := KeyedBy(keyColumn, source, f);
    var updated := p.base[p.ti := p.merged];
    SumOfWithout(updated, keyColumn, source, f);
    SumOfUpdate(p.base, p.ti, p.merged, f);
    SumOfUpdate(p.base, p.ti, p.merged, g);
    assert g(p.base[p.ti]) == 0.0 && g(p.merged) == 0.0;
    if p.t < 0 {
      var x := p.base[p.ti];
      SumOfAppend(rows, [x], f);
      SumOfAppend(rows, [x], g);
      assert [x][..0] == [];
    }
  }

  /** A merge moves amounts between rows but leaves every numeric column's
      total unchanged, provided the source account occurs at most once (as it
      does after grouping). */
  lemma MergeConservesTotal(rows: seq<Record>, keyColumn: string, cols: seq<string>, source: string, target: string, c: string)
    requires source != target && keyColumn !in cols && Distinct(cols) && c in cols
    requires Count(rows, keyColumn, source) <= 1.0
    ensures SumOf(MergedAccount(rows, keyColumn, cols, source, target), Amount(c)) == SumOf(rows, Amount(c))
  {
    if LastWith(rows, keyColumn, source) >= 0 {
      var p := PartsOf(rows, keyColumn, cols, source, target);
      MergeSum(rows, keyColumn, cols, source, target, Amount(c));
      MergedRowValues(rows, keyColumn, cols, source, target);
      SumOfSingle(rows, keyColumn, source, Amount(c));
      var i :| 0 <= i < |cols| && cols[i] == c;
      if p.t < 0 {
        NewTargetZero(keyColumn, target, rows[p.s].indent, cols);
      }
    }
  }

  /** A merge neither adds nor removes rows of any third account. */
  lemma MergeKeepsCount(rows: seq<Record>, keyColumn: string, cols: seq<string>, source: string, target: string, name: string)
    requires source != target && name != source && name != target && keyColumn !in cols && Distinct(cols)
    ensures Count(MergedAccount(rows, keyColumn, cols, source, target), keyColumn, name) == Count(rows, keyColumn, name)
  {
    if LastWith(rows, keyColumn, source) >= 0 {
      var f := KeyedBy(keyColumn, name, One());
      MergeSum(rows, keyColumn, cols, source, target, f);
      MergedRowKey(rows, keyColumn, cols, source, target);
      SumOfZero(rows, KeyedBy(keyColumn, source, f));
    }
  }

  lemma {:induction false} WithoutAppend(xs: seq<Record>, ys: seq<Record>, keyColumn: string, name: string)
    ensures Without(xs + ys, keyColumn, name) == Without(xs, keyColumn, name) + Without(ys, keyColumn, name)
    decreases |ys|
  {
    if ys == [] {
      assert xs + ys == xs;
    } else {
      WithoutAppend(xs, ys[..|ys| - 1], keyColumn, name);
      assert (xs + ys)[..|xs + ys| - 1] == xs + ys[..|ys| - 1];
    }
  }

  lemma {:induction false} WithoutCommute(xs: seq<Record>, keyColumn: string, a: string, b: string)
    ensures Without(Without(xs, keyColumn, a), keyColumn, b) == Without(Without(xs, keyColumn, b), keyColumn, a)
    decreases |xs|
  {
    if xs != [] {
      var init := xs[..|xs| - 1];
      var last := xs[|xs| - 1];
      WithoutCommute(init, keyColumn, a, b);
      var la := if Field(last, keyColumn) != Text(a) then [last] else [];
      var lb := if Field(last, keyColumn) != Text(b) then [last] else [];
      WithoutAppend(Without(init, keyColumn, a), la, keyColumn, b);
      WithoutAppend(Without(init, keyColumn, b), lb, keyColumn, a);
      assert la != [] ==> la[..0] == [];
      assert lb != [] ==> lb[..0] == [];
    }
  }

  lemma {:induction false} WithoutTwice(xs: seq<Record>, keyColumn: string, name: string)
    ensures Without(Without(xs, keyColumn, name), keyColumn, name) == Without(xs, keyColumn, name)
    decreases |xs|
  {
    if xs != [] {
      var init := xs[..|xs| - 1];
      var last := xs[|xs| - 1];
      WithoutTwice(init, keyColumn, name);
      var l := if Field(last, keyColumn) != Text(name) then [last] else [];
      WithoutAppend(Without(init, keyColumn, name), l, keyColumn, name);
      assert l != [] ==> l[..0] == [];
    }
  }

  /** Replacing one row keyed by `name` with another is invisible once the
      rows keyed by `name` are dropped. */
  lemma WithoutUpdate(xs: seq<Record>, i: nat, y: Record, keyColumn: string, name: string)
    requires i < |xs| && Field(xs[i], keyColumn) == Text(name) && Field(y, keyColumn) == Text(name)
    ensures Without(xs[i := y], keyColumn, name) == Without(xs, keyColumn, name)
  {
    assert xs == (xs[..i] + [xs[i]]) + xs[i + 1..];
    assert xs[i := y] == (xs[..i] + [y]) + xs[i + 1..];
    WithoutAppend(xs[..i] + [xs[i]], xs[i + 1..], keyColumn, name);
    WithoutAppend(xs[..i] + [y], xs[i + 1..], keyColumn, name);
    WithoutAppend(xs[..i], [xs[i]], keyColumn, name);
    WithoutAppend(xs[..i], [y], keyColumn, name);
    assert [xs[i]][..0] == [] && [y][..0] == [];
  }

  /** A merge leaves every row of any other account where it was: dropping
      the source and target rows, before and after are the same sequence. */
  lemma MergeKeepsOthers(rows: seq<Record>, keyColumn: string, cols: seq<string>, source: string, target: string)
    requires source != target && keyColumn !in cols && Distinct(cols)
    ensures Without(Without(MergedAccount(rows, keyColumn, cols, source, target), keyColumn, source), keyColumn, target)
      == Without(Without(rows, keyColumn, source), keyColumn, target)
  {
    if LastWith(rows, keyColumn, source) >= 0 {
      var p := PartsOf(rows, keyColumn, cols, source, target);
      PartsOfMerge(rows, keyColumn, cols, source, target);
      MergedRowKey(rows, keyColumn, cols, source, target);
      var updated := p.base[p.ti := p.merged];
      assert Without(p.base, keyColumn, target) == Without(rows, keyColumn, target) by {
        if p.t < 0 {
          var x := p.base[p.ti];
          WithoutAppend(rows, [x], keyColumn, target);
          assert [x][..0] == [];
          assert Without([x], keyColumn, target) == [];
        }
      }
      calc {
        Without(Without(MergedAccount(rows, keyColumn, cols, source, target), keyColumn, source), keyColumn, target);
        { WithoutTwice(updated, keyColumn, source); }
        Without(Without(updated, keyColumn, source), keyColumn, target);
        { WithoutCommute(updated, keyColumn, source, target); }
        Without(Without(updated, keyColumn, target), keyColumn, source);
        { WithoutUpdate(p.base, p.ti, p.merged, keyColumn, target); }
        Without(Without(p.base, keyColumn, target), keyColumn, source);
        Without(Without(rows, keyColumn, target), keyColumn, source);
        { WithoutCommute(rows, keyColumn, target, source); }
        Without(Without(rows, keyColumn, source), keyColumn, target);
      }
    }
  }

  /** The four account names involved are pairwise different. */
  lemma AccountNamesDistinct()
    ensures ProfitSource != LossSource && Parsers.EquityProfit != Parsers.EquityLoss
    ensures ProfitSource != Parsers.EquityProfit && ProfitSource != Parsers.EquityLoss
    ensures LossSource != Parsers.EquityProfit && LossSource != Parsers.EquityLoss
  {
    assert ProfitSource[4] != LossSource[4];
    assert Parsers.EquityProfit[15] != Parsers.EquityLoss[15];
  }

  /** Without any institution-account row, reclassification changes nothing. */
  lemma ReclassifiedNoSource(rows: seq<Record>, keyColumn: string, cols: seq<string>)
    requires forall r :: r in rows ==> Field(r, keyColumn) != Text(ProfitSource) && Field(r, keyColumn) != Text(LossSource)
    ensures Reclassified(rows, keyColumn, cols) == rows
  {
    MergeUnchanged(rows, keyColumn, cols, ProfitSource, Parsers.EquityProfit);
    MergeUnchanged(rows, keyColumn, cols, LossSource, Parsers.EquityLoss);
  }

  /** After reclassification no institution-account row remains. */
  lemma ReclassifiedDropsSources(rows: seq<Record>, keyColumn: string, cols: seq<string>)
    requires keyColumn !in cols && Distinct(cols)
    ensures forall r :: r in Reclassified(rows, keyColumn, cols) ==>
      Field(r, keyColumn) != Text(ProfitSource) && Field(r, keyColumn) != Text(LossSource)
  {
    AccountNamesDistinct();
    var afterProfit := MergedAccount(rows, keyColumn, cols, ProfitSource, Parsers.EquityProfit);
    MergeDropsSource(rows, keyColumn, cols, ProfitSource, Parsers.EquityProfit);
    MergeDropsSource(afterProfit, keyColumn, cols, LossSource, Parsers.EquityLoss);
    MergeTouchesOnlyTarget(afterProfit, keyColumn, cols, LossSource, Parsers.EquityLoss);
  }

  /** Reclassification leaves every numeric column's total unchanged when
      each institution account occurs at most once. */
  lemma ReclassifiedConservesTotals(rows: seq<Record>, keyColumn: string, cols: seq<string>, c: string)
    requires keyColumn !in cols && Distinct(cols) && c in cols
    requires Count(rows, keyColumn, ProfitSource) <= 1.0 && Count(rows, keyColumn, LossSource) <= 1.0
    ensures SumOf(Reclassified(rows, keyColumn, cols), Amount(c)) == SumOf(rows, Amount(c))
  {
    AccountNamesDistinct();
    var afterProfit := MergedAccount(rows, keyColumn, cols, ProfitSource, Parsers.EquityProfit);
    MergeConservesTotal(rows, keyColumn, cols, ProfitSource, Parsers.EquityProfit, c);
    MergeKeepsCount(rows, keyColumn, cols, ProfitSource, Parsers.EquityProfit, LossSource);
    MergeConservesTotal(afterProfit, keyColumn, cols, LossSource, Parsers.EquityLoss, c);
  }

  /** The rows of every account other than the four involved. */
  function Others(rows: seq<Record>, keyColumn: string): seq<Record> {
    Without(Without(Without(Without(rows, keyColumn, ProfitSource), keyColumn, Parsers.EquityProfit),
                    keyColumn, LossSource), keyColumn, Parsers.EquityLoss)
  }

  lemma OthersReorder(xs: seq<Record>, keyColumn: string)
    ensures Others(xs, keyColumn)
      == Without(Without(Without(Without(xs, keyColumn, LossSource), keyColumn, Parsers.EquityLoss),
                         keyColumn, ProfitSource), keyColumn, Parsers.EquityProfit)
  {
    var ps, pt, ls, lt := ProfitSource, Parsers.EquityProfit, LossSource, Parsers.EquityLoss;
    WithoutCommute(Without(xs, keyColumn, ps), keyColumn, pt, ls);
    WithoutCommute(xs, keyColumn, ps, ls);
    WithoutCommute(Without(Without(xs, keyColumn, ls), keyColumn, ps), keyColumn, pt, lt);
    WithoutCommute(Without(xs, keyColumn, ls), keyColumn, ps, lt);
  }

  /** Reclassification leaves the rows of every other account untouched and
      in their order. */
  lemma ReclassifiedKeepsOthers(rows: seq<Record>, keyColumn: string, cols: seq<string>)
    requires keyColumn !in cols && Distinct(cols)
    ensures Others(Reclassified(rows, keyColumn, cols), keyColumn) == Others(rows, keyColumn)
  {
    AccountNamesDistinct();
    var afterProfit := MergedAccount(rows, keyColumn, cols, ProfitSource, Parsers.EquityProfit);
    var out := Reclassified(rows, keyColumn, cols);
    MergeKeepsOthers(afterProfit, keyColumn, cols, LossSource, Parsers.EquityLoss);
    OthersReorder(out, keyColumn);
    OthersReorder(afterProfit, keyColumn);
    MergeKeepsOthers(rows, keyColumn, cols, ProfitSource, Parsers.EquityProfit);
  }

  /** Rows with pairwise different keys hold each account at most once. */
  lemma {:induction false} CountDistinctKeys(xs: seq<Record>, keyColumn: string, name: string)
    requires forall i, j :: 0 <= i < j < |xs| ==> Field(xs[i], keyColumn) != Field(xs[j], keyColumn)
    ensures Count(xs, keyColumn, name) <= 1.0
    decreases |xs|
  {
    if xs != [] {
      var init := xs[..|xs| - 1];
      if Field(xs[|xs| - 1], keyColumn) == Text(name) {
        forall r | r in init
          ensures KeyedBy(keyColumn, name, One())(r) == 0.0
        {
          var i :| 0 <= i < |init| && init[i] == r;
          assert Field(xs[i], keyColumn) != Field(xs[|xs| - 1], keyColumn);
        }
        SumOfZero(init, KeyedBy(keyColumn, name, One()));
      } else {
        CountDistinctKeys(init, keyColumn, name);
      }
    }
  }

  /** Aggregated rows have pairwise different keys, so each account occurs
      at most once among them. */
  lemma GroupedCount(rows: seq<Record>, keyColumn: string, cols: seq<string>, parse: NumberReader, business: bool, name: string)
    requires keyColumn !in cols
    ensures Count(GroupedRows(rows, keyColumn, cols, parse, business), keyColumn, name) <= 1.0
  {
    var g := GroupFold(rows, keyColumn, cols, |rows|, parse, business);
    var out := GroupedRows(rows, keyColumn, cols, parse, business);
    GroupedKeys(rows, keyColumn, cols, parse, business);
    GroupFoldOrder(rows, keyColumn, cols, |rows|, parse, business);
    forall i, j | 0 <= i < j < |out|
      ensures Field(out[i], keyColumn) != Field(out[j], keyColumn)
    {
      assert FirstWith(rows, keyColumn, g.order[i]) < FirstWith(rows, keyColumn, g.order[j]);
      assert Field(out[i], keyColumn) == Text(g.order[i]) && Field(out[j], keyColumn) == Text(g.order[j]);
    }
    CountDistinctKeys(out, keyColumn, name);
  }

  // ---------------------------------------------------------- template sort

  /** The first position of `s` in the template at or after `i`, or |template|. */
  function PositionIn(template: seq<string>, s: string, i: nat): (k: nat)
    requires i <= |template|
    ensures i <= k <= |template|
    ensures k < |template| ==> template[k] == s
    ensures forall j :: i <= j < k ==> template[j] != s
    decreases |template| - i
  {
    if i == |template| then i
    else if template[i] == s then i
    else PositionIn(template, s, i + 1)
  }

  /** `PROFIT_LOSS_ACCOUNT_ORDER.indexOf(row[keyColumn])`, with "absent"
      read as |template|, which the comparator sorts after every template
      position. */
  function TemplateRank(template: seq<string>, keyColumn: string, r: Record): (k: nat)
    ensures k <= |template|
    ensures k < |template| ==> Field(r, keyColumn) == Text(template[k])
    ensures forall j :: 0 <= j < k ==> Field(r, keyColumn) != Text(template[j])
  {
    match Field(r, keyColumn)
    case Text(s) => PositionIn(template, s, 0)
    case _ => |template|
  }

  /** The comparator of displayAggregated, read as "comes no later than". */
  function ByTemplate(template: seq<string>, keyColumn: string): (Record, Record) -> bool {
    (a, b) => TemplateRank(template, keyColumn, a) <= TemplateRank(template, keyColumn, b)
  }

  /** `aggregatedRows.sort(...)` against the account template. */
  function TemplateOrdered(rows: seq<Record>, keyColumn: string, template: seq<string>): seq<Record> {
    SortBy(rows, ByTemplate(template, keyColumn))
  }

  /** The template sort rearranges the rows without adding or dropping any;
      rows whose account is in the template come first, in template order,
      and every other row comes after them. */
  lemma TemplateOrderMeaning(rows: seq<Record>, keyColumn: string, template: seq<string>)
    ensures var out := TemplateOrdered(rows, keyColumn, template);
      && multiset(out) == multiset(rows)
      && (forall i, j :: 0 <= i < j < |out| ==> TemplateRank(template, keyColumn, out[i]) <= TemplateRank(template, keyColumn, out[j]))
      && (forall i, j :: 0 <= i < j < |out| && TemplateRank(template, keyColumn, out[i]) == |template| ==>
            TemplateRank(template, keyColumn, out[j]) == |template|)
  {
    var le := ByTemplate(template, keyColumn);
    assert TotalPreorder(le);
    SortByPermutation(rows, le);
    SortBySorted(rows, le);
  }

  lemma {:induction false} SumOfPermutation(xs: seq<Record>, ys: seq<Record>, f: Record -> real)
    requires multiset(xs) == multiset(ys)
    ensures SumOf(xs, f) == SumOf(ys, f)
    decreases |xs|
  {
    if xs != [] {
      var init := xs[..|xs| - 1];
      var x := xs[|xs| - 1];
      assert xs == init + [x];
      assert x in multiset(ys);
      var j :| 0 <= j < |ys| && ys[j] == x;
      var rest := ys[..j] + ys[j + 1..];
      assert ys == (ys[..j] + [x]) + ys[j + 1..];
      assert multiset(rest) == multiset(ys) - multiset{x};
      SumOfPermutation(init, rest, f);
      SumOfAppend(ys[..j] + [x], ys[j + 1..], f);
      SumOfAppend(ys[..j], [x], f);
      SumOfAppend(ys[..j], ys[j + 1..], f);
      assert [x][..0] == [];
    }
  }

  // ------------------------------------------------------------ one report

  /** The report key whose business summary is reclassified and sorted. */
  const ProfitLossKey: string := "損益表"

  /** The rows displayAggregated files under one report key, or None when
      the key has no schema in the selected category and is skipped. */
  function AggregateReport(t: FundType, reportKey: string, rows: seq<Record>, template: seq<string>,
                           parse: NumberReader): Option<seq<Record>>
  {
    var schema := Lookup(ActiveConfig(t), BaseKey(reportKey));
    if schema.None? then None
    else
      var keyColumn := schema.value.keyColumn;
      var cols := NumericColumns(schema.value);
      var grouped := GroupedRows(rows, keyColumn, cols, parse, t == Business);
      if t == Business && reportKey == ProfitLossKey
      then Some(TemplateOrdered(Reclassified(grouped, keyColumn, cols), keyColumn, template))
      else Some(grouped)
  }

  /** The body of displayAggregated's loop for one report key. */
  method AggregateRows(t: FundType, reportKey: string, rows: seq<Record>, template: seq<string>, parse: NumberReader)
    returns (r: Option<seq<Record>>)
    ensures r == AggregateReport(t, reportKey, rows, template, parse)
    ensures r.Some? <==> Lookup(ActiveConfig(t), BaseKey(reportKey)).Some?
  {
    var config := Lookup(ActiveConfig(t), BaseKey(reportKey));
    if config.None? {
      return None;
    }
    var keyColumn := config.value.keyColumn;
    var numericCols := NumericColumns(config.value);
    var aggregatedRows := Group(rows, keyColumn, numericCols, parse, t == Business);
    if t == Business && reportKey == ProfitLossKey {
      aggregatedRows := MergeAccount(aggregatedRows, keyColumn, numericCols, ProfitSource, Parsers.EquityProfit);
      aggregatedRows := MergeAccount(aggregatedRows, keyColumn, numericCols, LossSource, Parsers.EquityLoss);
      aggregatedRows := TemplateOrdered(aggregatedRows, keyColumn, template);
    }
    r := Some(aggregatedRows);
  }

  /** A schema found in the registry has its key column outside the
      numeric columns, which are distinct. */
  lemma SchemaColumns(t: FundType, key: string)
    requires Lookup(ActiveConfig(t), key).Some?
    ensures var schema := Lookup(ActiveConfig(t), key).value;
      schema.keyColumn !in NumericColumns(schema) && Distinct(NumericColumns(schema))
  {
    ColumnsDistinct(t);
  }

  /** Every summary row of a report has a non-empty key, and every numeric
      column's total over the summary equals its total over the grouped rows;
      for the business profit-and-loss summary, no institution-account row
      remains and every other account keeps its rows and their order. */
  lemma AggregateReportMeaning(t: FundType, reportKey: string, rows: seq<Record>, template: seq<string>,
                               parse: NumberReader, c: string)
    requires Lookup(ActiveConfig(t), BaseKey(reportKey)).Some?
    ensures var schema := Lookup(ActiveConfig(t), BaseKey(reportKey)).value;
      var cols := NumericColumns(schema);
      var grouped := GroupedRows(rows, schema.keyColumn, cols, parse, t == Business);
      var out := AggregateReport(t, reportKey, rows, template, parse);
      && out.Some?
      && (c in cols ==> SumOf(out.value, Amount(c)) == SumOf(grouped, Amount(c)))
      && (t == Business && reportKey == ProfitLossKey ==>
            && multiset(out.value) == multiset(Reclassified(grouped, schema.keyColumn, cols))
            && Others(Reclassified(grouped, schema.keyColumn, cols), schema.keyColumn) == Others(grouped, schema.keyColumn)
            && forall r :: r in out.value ==>
                 Field(r, schema.keyColumn) != Text(ProfitSource) && Field(r, schema.keyColumn) != Text(LossSource))
      && (!(t == Business && reportKey == ProfitLossKey) ==> out.value == grouped)
  {
    var schema := Lookup(ActiveConfig(t), BaseKey(reportKey)).value;
    var keyColumn := schema.keyColumn;
    var cols := NumericColumns(schema);
    var grouped := GroupedRows(rows, keyColumn, cols, parse, t == Business);
    SchemaColumns(t, BaseKey(reportKey));
    if t == Business && reportKey == ProfitLossKey {
      var merged := Reclassified(grouped, keyColumn, cols);
      var out := TemplateOrdered(merged, keyColumn, template);
      TemplateOrderMeaning(merged, keyColumn, template);
      ReclassifiedDropsSources(grouped, keyColumn, cols);
      ReclassifiedKeepsOthers(grouped, keyColumn, cols);
      forall r | r in out
        ensures r in merged
      {
        assert r in multiset(out);
      }
      if c in cols {
        GroupedCount(rows, keyColumn, cols, parse, true, ProfitSource);
        GroupedCount(rows, keyColumn, cols, parse, true, LossSource);
        ReclassifiedConservesTotals(grouped, keyColumn, cols, c);
        SumOfPermutation(out, merged, Amount(c));
      }
    }
  }

  // --------------------------------------------------------------- tab order

  /** The report keys of one registry kind as the pipeline files them. */
  function KindKeys(kind: ReportKind): seq<string> {
    if IsBalanceSheetKey(kind.name) then [kind.name + AssetSuffix, kind.name + LiabilitySuffix] else [kind.name]
  }

  /** `allPossibleKeys` of createTabsAndTables: the registry's report keys in
      declaration order, each balance sheet replaced by its two halves. */
  function AllPossibleKeys(c: Category): seq<string>
    decreases |c|
  {
    if c == [] then [] else KindKeys(c[0]) + AllPossibleKeys(c[1..])
  }

  /** The report keys createTabsAndTables renders a tab for, in order: the
      possible keys present in the data with a non-empty list and a schema. */
  function TabKeys(t: FundType, data: map<string, seq<Record>>): seq<string> {
    KeepShown(AllPossibleKeys(ActiveConfig(t)), ActiveConfig(t), data)
  }

  function KeepShown(keys: seq<string>, c: Category, data: map<string, seq<Record>>): (r: seq<string>)
    ensures forall k :: k in r <==> k in keys && k in data && |data[k]| > 0 && Lookup(c, BaseKey(k)).Some?
    decreases |keys|
  {
    if keys == [] then []
    else
      var rest := KeepShown(keys[1..], c, data);
      var k := keys[0];
      if k in data && |data[k]| > 0 && Lookup(c, BaseKey(k)).Some? then [k] + rest else rest
  }

  /** `x` occurs in `keys` at an earlier position than `y`. */
  ghost predicate Before(keys: seq<string>, x: string, y: string) {
    exists a, b :: 0 <= a < b < |keys| && keys[a] == x && keys[b] == y
  }

  /** Filtering keeps the order: any two kept keys appear in that order in
      the list they were kept from. */
  lemma {:induction false} KeepShownOrder(keys: seq<string>, c: Category, data: map<string, seq<Record>>)
    ensures forall i, j :: 0 <= i < j < |KeepShown(keys, c, data)| ==>
      Before(keys, KeepShown(keys, c, data)[i], KeepShown(keys, c, data)[j])
    decreases |keys|
  {
    if keys != [] {
      KeepShownOrder(keys[1..], c, data);
      var rest := KeepShown(keys[1..], c, data);
      var r := KeepShown(keys, c, data);
      forall i, j | 0 <= i < j < |r|
        ensures Before(keys, r[i], r[j])
      {
        if r == rest {
          assert Before(keys[1..], rest[i], rest[j]);
          var a, b :| 0 <= a < b < |keys[1..]| && keys[1..][a] == rest[i] && keys[1..][b] == rest[j];
          assert keys[a + 1] == r[i] && keys[b + 1] == r[j];
        } else if i == 0 {
          assert r == [keys[0]] + rest;
          assert rest[j - 1] in keys[1..];
          var b :| 0 <= b < |keys[1..]| && keys[1..][b] == rest[j - 1];
          assert keys[0] == r[i] && keys[b + 1] == r[j];
        } else {
          assert r == [keys[0]] + rest;
          assert Before(keys[1..], rest[i - 1], rest[j - 1]);
          var a, b :| 0 <= a < b < |keys[1..]| && keys[1..][a] == rest[i - 1] && keys[1..][b] == rest[j - 1];
          assert keys[a + 1] == r[i] && keys[b + 1] == r[j];
        }
      }
    }
  }

  /** Every possible key maps back to the registry kind it came from. */
  lemma {:induction false} PossibleKeysBase(c: Category)
    requires forall i :: 0 <= i < |c| ==> '_' !in c[i].name
    ensures forall k :: k in AllPossibleKeys(c) ==> exists i :: 0 <= i < |c| && c[i].name == BaseKey(k)
    decreases |c|
  {
    if c != [] {
      PossibleKeysBase(c[1..]);
      var name := c[0].name;
      BaseKeyPlain(name);
      BaseKeyOfHalf(name, AssetSuffix);
      BaseKeyOfHalf(name, LiabilitySuffix);
      forall k | k in AllPossibleKeys(c)
        ensures exists i :: 0 <= i < |c| && c[i].name == BaseKey(k)
      {
        if k in KindKeys(c[0]) {
          assert c[0].name == BaseKey(k);
        } else {
          var i :| 0 <= i < |c[1..]| && c[1..][i].name == BaseKey(k);
          assert c[i + 1].name == BaseKey(k);
        }
      }
    }
  }

  /** No registry report key contains '_'. */
  lemma NamesPlain(t: FundType)
    ensures forall i :: 0 <= i < |ActiveConfig(t)| ==> '_' !in ActiveConfig(t)[i].name
  {
    KindsDistinct(t);
    forall i | 0 <= i < 4
      ensures '_' !in ActiveConfig(t)[i].name
    {
      var name := ActiveConfig(t)[i].name;
      assert forall j :: 0 <= j < |name| ==> name[j] != '_';
    }
  }

  /** createTabsAndTables shows a tab for exactly the possible keys that have
      rows, in registry order; the schema lookup never skips one. */
  lemma TabKeysMeaning(t: FundType, data: map<string, seq<Record>>)
    ensures forall k :: k in TabKeys(t, data) <==> k in AllPossibleKeys(ActiveConfig(t)) && k in data && |data[k]| > 0
    ensures forall i, j :: 0 <= i < j < |TabKeys(t, data)| ==>
      Before(AllPossibleKeys(ActiveConfig(t)), TabKeys(t, data)[i], TabKeys(t, data)[j])
  {
    NamesPlain(t);
    PossibleKeysBase(ActiveConfig(t));
    KeepShownOrder(AllPossibleKeys(ActiveConfig(t)), ActiveConfig(t), data);
  }

  /** Every report key processFile can file for a category is one of its
      possible keys, so every key that has rows gets a tab. */
  lemma FiledKeysPossible(t: FundType)
    ensures forall k :: k in Parsers.KeysUpTo(ActiveConfig(t), |ActiveConfig(t)|) ==> k in AllPossibleKeys(ActiveConfig(t))
  {
    var c := ActiveConfig(t);
    KindsDistinct(t);
    forall i | 0 <= i < 4
      ensures forall k :: k in Parsers.StatementKeys(c[i]) ==> k in AllPossibleKeys(c)
    {
      StatementKeysOfKind(t, i);
      KindKeysInPossible(c, i);
    }
    KeysUpToCovered(c, 4);
  }

  lemma {:induction false} KeysUpToCovered(c: Category, n: nat)
    requires n <= |c|
    requires forall i :: 0 <= i < n ==> forall k :: k in Parsers.StatementKeys(c[i]) ==> k in AllPossibleKeys(c)
    ensures forall k :: k in Parsers.KeysUpTo(c, n) ==> k in AllPossibleKeys(c)
    decreases n
  {
    if n > 0 {
      KeysUpToCovered(c, n - 1);
    }
  }

  lemma {:induction false} KindKeysInPossible(c: Category, i: nat)
    requires i < |c|
    ensures forall k :: k in KindKeys(c[i]) ==> k in AllPossibleKeys(c)
    decreases i
  {
    if i > 0 {
      KindKeysInPossible(c[1..], i - 1);
      assert c[1..][i - 1] == c[i];
    }
  }

  /** The keys a registry kind is filed under are the ones its tab list
      names (none, for the unregistered business profit-and-loss tag). */
  lemma StatementKeysOfKind(t: FundType, i: nat)
    requires i < 4
    ensures forall k :: k in Parsers.StatementKeys(ActiveConfig(t)[i]) ==> k in KindKeys(ActiveConfig(t)[i])
  {
    KindsDistinct(t);
    Parsers.ProfitLossTagUnregistered();
    assert "平衡表" + AssetSuffix == "平衡表_資產";
    assert "平衡表" + LiabilitySuffix == "平衡表_負債及權益";
    assert "資產負債表" + AssetSuffix == "資產負債表_資產";
    assert "資產負債表" + LiabilitySuffix == "資產負債表_負債及權益";
  }
}
