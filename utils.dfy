/** Sheet and header location, column mapping and fund-name extraction
    (utils.js). Each loop of the source is a method proved equal to a
    function that states what it computes; the promises of the source are
    the ensures of those functions and the lemmas about them. */
module Utils {
  import opened Text
  import opened Records

  function Min(a: int, b: int): int { if a < b then a else b }

  // ---------------------------------------------------------------- findSheet

  /** `workbook.SheetNames.find(name => name.includes(keyword))`, as the
      position of that sheet. */
  function FindSheet(wb: Workbook, keyword: string): (r: Option<nat>)
    ensures r.Some? ==> r.value < |wb| && Contains(wb[r.value].name, keyword)
    ensures r.Some? ==> forall j :: 0 <= j < r.value ==> !Contains(wb[j].name, keyword)
    ensures r.None? <==> forall j :: 0 <= j < |wb| ==> !Contains(wb[j].name, keyword)
  {
    FindSheetFrom(wb, keyword, 0)
  }

  function FindSheetFrom(wb: Workbook, keyword: string, i: nat): (r: Option<nat>)
    requires i <= |wb|
    ensures r.Some? ==> i <= r.value < |wb| && Contains(wb[r.value].name, keyword)
    ensures r.Some? ==> forall j :: i <= j < r.value ==> !Contains(wb[j].name, keyword)
    ensures r.None? <==> forall j :: i <= j < |wb| ==> !Contains(wb[j].name, keyword)
    decreases |wb| - i
  {
    if i == |wb| then None
    else if Contains(wb[i].name, keyword) then Some(i)
    else FindSheetFrom(wb, keyword, i + 1)
  }

  // ------------------------------------------------------- findHeaderRowIndex

  /** `row.join(' ').replace(/\s/g, '')` */
  function RowText(row: seq<string>): string {
    StripSpace(Join(row, " "))
  }

  /** How many of the first `n` expected columns, whitespace stripped, occur in
      the row's stripped text. */
  function ScoreUpTo(row: seq<string>, columns: seq<string>, n: nat): (s: nat)
    requires n <= |columns|
    ensures s <= n
  {
    if n == 0 then 0
    else ScoreUpTo(row, columns, n - 1) + (if Contains(RowText(row), StripSpace(columns[n - 1])) then 1 else 0)
  }

  function Score(row: seq<string>, columns: seq<string>): nat {
    ScoreUpTo(row, columns, |columns|)
  }

  /** A row the header search looks at: `Array.isArray(row) && row.length > 0`. */
  predicate Scored(data: seq<seq<string>>, i: nat)
    requires i < |data|
  {
    |data[i]| > 0
  }

  /** The best (row, score) pair among the first `n` rows, updated only on a
      strict improvement over an initial score of 0. */
  function Best(data: seq<seq<string>>, columns: seq<string>, n: nat): (b: (int, nat))
    requires n <= |data|
    ensures b.0 == -1 ==> b.1 == 0
    ensures b.0 != -1 ==> 0 <= b.0 < n && Scored(data, b.0) && b.1 == Score(data[b.0], columns) && b.1 > 0
    ensures forall j :: 0 <= j < n && Scored(data, j) ==> Score(data[j], columns) <= b.1
    ensures b.0 != -1 ==> forall j :: 0 <= j < b.0 && Scored(data, j) ==> Score(data[j], columns) < b.1
  {
    if n == 0 then (-1, 0)
    else
      var prev := Best(data, columns, n - 1);
      if Scored(data, n - 1) && Score(data[n - 1], columns) > prev.1 then (n - 1, Score(data[n - 1], columns))
      else prev
  }

  /** The header row: the earliest of the first ten rows with the highest
      score, provided that score is at least 2; -1 otherwise. */
  function HeaderRowIndex(data: seq<seq<string>>, columns: seq<string>): (r: int)
    ensures -1 <= r < Min(|data|, 10)
    ensures r != -1 ==> Scored(data, r) && Score(data[r], columns) >= 2
    ensures r != -1 ==> forall j :: 0 <= j < Min(|data|, 10) && Scored(data, j) ==> Score(data[j], columns) <= Score(data[r], columns)
    ensures r != -1 ==> forall j :: 0 <= j < r && Scored(data, j) ==> Score(data[j], columns) < Score(data[r], columns)
    ensures r == -1 <==> forall j :: 0 <= j < Min(|data|, 10) && Scored(data, j) ==> Score(data[j], columns) <= 1
  {
    var b := Best(data, columns, Min(|data|, 10));
    if b.1 > 1 then b.0 else -1
  }

  /** The score of one row: the `columns.forEach` loop of findHeaderRowIndex. */
  method RowScore(row: seq<string>, columns: seq<string>) returns (score: nat)
    ensures score == Score(row, columns)
  {
    var rowAsString := RowText(row);
    score := 0;
    var k := 0;
    while k < |columns|
      invariant 0 <= k <= |columns|
      invariant score == ScoreUpTo(row, columns, k)
    {
      if Contains(rowAsString, StripSpace(columns[k])) {
        score := score + 1;
      }
      k := k + 1;
    }
  }

  /** findHeaderRowIndex */
  method FindHeaderRowIndex(data: seq<seq<string>>, columns: seq<string>) returns (r: int)
    ensures r == HeaderRowIndex(data, columns)
  {
    var bestRow, bestScore := -1, 0;
    var limit := Min(|data|, 10);
    var i := 0;
    while i < limit
      invariant 0 <= i <= limit
      invariant (bestRow, bestScore) == Best(data, columns, i)
    {
      var row := data[i];
      if |row| == 0 {
        i := i + 1;
        continue;
      }
      var score := RowScore(row, columns);
      if score > bestScore {
        bestRow, bestScore := i, score;
      }
      i := i + 1;
    }
    r := if bestScore > 1 then bestRow else -1;
  }

  // --------------------------------------------------------- getHeaderMapping

  /** `String(cell || '').trim().replace(/\s/g, '')` */
  function CleanCell(cell: string): string {
    StripSpace(Trim(cell))
  }

  /** The rest of the column scan from index `i`, with `best` the first
      unassigned cell found so far that contains the cleaned name. */
  function Scan(header: seq<string>, clean: string, taken: set<nat>, i: nat, best: int): int
    decreases |header| - i
  {
    if i >= |header| then best
    else if i in taken then Scan(header, clean, taken, i + 1, best)
    else if CleanCell(header[i]) == clean then i
    else if Contains(CleanCell(header[i]), clean) && best == -1 then Scan(header, clean, taken, i + 1, i)
    else Scan(header, clean, taken, i + 1, best)
  }

  /** A cell the scan may choose: unassigned and within [start, |header|). */
  predicate Free(header: seq<string>, start: nat, taken: set<nat>, j: int) {
    start <= j < |header| && j !in taken
  }

  lemma {:induction false} ScanMeaning(header: seq<string>, clean: string, start: nat, taken: set<nat>, i: nat, best: int)
    requires start <= i
    requires best == -1 || (best < i && Free(header, start, taken, best)
                            && Contains(CleanCell(header[best]), clean) && CleanCell(header[best]) != clean)
    requires best != -1 ==> forall j :: j < best && Free(header, start, taken, j) ==> !Contains(CleanCell(header[j]), clean)
    requires best == -1 ==> forall j :: j < i && Free(header, start, taken, j) ==> !Contains(CleanCell(header[j]), clean)
    requires forall j :: j < i && Free(header, start, taken, j) ==> CleanCell(header[j]) != clean
    ensures var r := Scan(header, clean, taken, i, best);
      && (r == -1 || (Free(header, start, taken, r) && Contains(CleanCell(header[r]), clean)))
      && (r == -1 <==> forall j :: Free(header, start, taken, j) ==> !Contains(CleanCell(header[j]), clean))
      && ((exists j :: Free(header, start, taken, j) && CleanCell(header[j]) == clean) ==> r != -1 && CleanCell(header[r]) == clean)
      && (r != -1 && CleanCell(header[r]) == clean ==> forall j :: j < r && Free(header, start, taken, j) ==> CleanCell(header[j]) != clean)
      && (r != -1 && CleanCell(header[r]) != clean ==> forall j :: j < r && Free(header, start, taken, j) ==> !Contains(CleanCell(header[j]), clean))
    decreases |header| - i
  {
    if i >= |header| {
    } else if i in taken {
      ScanMeaning(header, clean, start, taken, i + 1, best);
    } else if CleanCell(header[i]) == clean {
      assert StartsWith(CleanCell(header[i]), clean);
    } else if Contains(CleanCell(header[i]), clean) && best == -1 {
      ScanMeaning(header, clean, start, taken, i + 1, i);
    } else {
      ScanMeaning(header, clean, start, taken, i + 1, best);
    }
  }

  /** The cell chosen for one column: a free cell or -1. */
  function Pick(header: seq<string>, clean: string, start: nat, taken: set<nat>): (r: int)
    ensures r == -1 || Free(header, start, taken, r)
  {
    ScanMeaning(header, clean, start, taken, start, -1);
    Scan(header, clean, taken, start, -1)
  }

  /** The column scan prefers an exact match: it picks the first free cell
      equal to the cleaned name if there is one, otherwise the first free
      cell containing it, and finds nothing exactly when no free cell
      contains it. */
  lemma PickMeaning(header: seq<string>, clean: string, start: nat, taken: set<nat>)
    ensures var r := Pick(header, clean, start, taken);
      && (r != -1 ==> Contains(CleanCell(header[r]), clean))
      && (r == -1 <==> forall j :: Free(header, start, taken, j) ==> !Contains(CleanCell(header[j]), clean))
      && ((exists j :: Free(header, start, taken, j) && CleanCell(header[j]) == clean) ==> r != -1 && CleanCell(header[r]) == clean)
      && (r != -1 && CleanCell(header[r]) == clean ==> forall j :: j < r && Free(header, start, taken, j) ==> CleanCell(header[j]) != clean)
      && (r != -1 && CleanCell(header[r]) != clean ==> forall j :: j < r && Free(header, start, taken, j) ==> !Contains(CleanCell(header[j]), clean))
  {
    ScanMeaning(header, clean, start, taken, start, -1);
  }

  datatype MapState = MapState(mapping: map<string, nat>, taken: set<nat>)

  /** The mapping after the first `n` columns have been matched in order. */
  function MappingUpTo(header: seq<string>, columns: seq<string>, start: nat, n: nat): (st: MapState)
    requires n <= |columns|
    ensures forall c :: c in st.mapping ==> c in columns[..n] && st.mapping[c] in st.taken
    ensures forall i :: i in st.taken ==> start <= i < |header|
    ensures forall c1, c2 :: c1 in st.mapping && c2 in st.mapping && c1 != c2 ==> st.mapping[c1] != st.mapping[c2]
  {
    if n == 0 then MapState(map[], {})
    else
      var prev := MappingUpTo(header, columns, start, n - 1);
      var c := columns[n - 1];
      var p := Pick(header, StripSpace(c), start, prev.taken);
      assert forall d :: d in columns[..n - 1] ==> d in columns[..n];
      if p == -1 then prev
      else MapState(prev.mapping[c := p], prev.taken + {p})
  }

  /** getHeaderMapping: each mapped column gets its own cell index in
      [start, |header|), and no index serves two columns. */
  function HeaderMapping(header: seq<string>, columns: seq<string>, start: nat): (m: map<string, nat>)
    ensures forall c :: c in m ==> c in columns && start <= m[c] < |header|
    ensures forall c1, c2 :: c1 in m && c2 in m && c1 != c2 ==> m[c1] != m[c2]
  {
    assert columns[..|columns|] == columns;
    MappingUpTo(header, columns, start, |columns|).mapping
  }

  /** With distinct column names, column `k` is mapped iff its own scan, over
      the cells the earlier columns left unassigned, finds a cell, and then it
      is mapped to that cell. */
  lemma {:induction false} MappingOfColumn(header: seq<string>, columns: seq<string>, start: nat, n: nat, k: nat)
    requires k < n <= |columns|
    requires forall i, j :: 0 <= i < j < |columns| ==> columns[i] != columns[j]
    ensures var p := Pick(header, StripSpace(columns[k]), start, MappingUpTo(header, columns, start, k).taken);
      var m := MappingUpTo(header, columns, start, n).mapping;
      (columns[k] in m <==> p != -1) && (p != -1 ==> m[columns[k]] == p)
  {
    var c := columns[k];
    var prev := MappingUpTo(header, columns, start, n - 1);
    var d := columns[n - 1];
    var q := Pick(header, StripSpace(d), start, prev.taken);
    assert MappingUpTo(header, columns, start, n) ==
      if q == -1 then prev else MapState(prev.mapping[d := q], prev.taken + {q});
    if n - 1 > k {
      MappingOfColumn(header, columns, start, n - 1, k);
      assert d != c;
    } else {
      assert forall i :: 0 <= i < k ==> columns[..k][i] != c;
      assert c !in columns[..k];
    }
  }

  /** getHeaderMapping */
  method GetHeaderMapping(header: seq<string>, columns: seq<string>, start: nat) returns (mapping: map<string, nat>)
    ensures mapping == HeaderMapping(header, columns, start)
  {
    mapping := map[];
    var assignedCols: set<nat> := {};
    var n := 0;
    while n < |columns|
      invariant 0 <= n <= |columns|
      invariant MapState(mapping, assignedCols) == MappingUpTo(header, columns, start, n)
    {
      var colName := columns[n];
      var bestMatchColIndex := -1;
      var cleanColName := StripSpace(colName);
      var i := start;
      while i < |header|
        invariant Scan(header, cleanColName, assignedCols, i, bestMatchColIndex) == Pick(header, cleanColName, start, assignedCols)
        decreases |header| - i
      {
        if i in assignedCols {
          i := i + 1;
          continue;
        }
        var cellContent := CleanCell(header[i]);
        if cellContent == cleanColName {
          bestMatchColIndex := i;
          break;
        }
        if Contains(cellContent, cleanColName) && bestMatchColIndex == -1 {
          bestMatchColIndex := i;
        }
        i := i + 1;
      }
      assert bestMatchColIndex == Pick(header, cleanColName, start, assignedCols);
      if bestMatchColIndex != -1 {
        mapping := mapping[colName := bestMatchColIndex];
        assignedCols := assignedCols + {bestMatchColIndex};
      }
      n := n + 1;
    }
    assert columns[..|columns|] == columns;
  }

  // ---------------------------------------------------------- extractFundName

  const FundMarker: string := "基金"

  /** The statement names removed from the chosen fund-name cell, in order. */
  const RemovableParts: seq<string> := ["收支餘絀表", "餘絀撥補表", "現金流量表", "平衡表", "資產負債表", "損益表", "盈虧撥補表"]

  /** The trimmed texts, among the first `n` cells of a row, that mention 基金. */
  function CellCandidates(row: seq<string>, n: nat): seq<string>
    requires n <= |row|
  {
    if n == 0 then []
    else CellCandidates(row, n - 1) + (if Contains(Trim(row[n - 1]), FundMarker) then [Trim(row[n - 1])] else [])
  }

  function RowCandidates(grid: seq<seq<string>>, n: nat): seq<string>
    requires n <= |grid|
  {
    if n == 0 then [] else RowCandidates(grid, n - 1) + CellCandidates(grid[n - 1], |grid[n - 1]|)
  }

  function SheetCandidates(wb: Workbook, n: nat): seq<string>
    requires n <= |wb|
  {
    if n == 0 then [] else SheetCandidates(wb, n - 1) + RowCandidates(wb[n - 1].grid, Min(|wb[n - 1].grid|, 5))
  }

  lemma {:induction false} CellCandidatesMention(row: seq<string>, n: nat)
    requires n <= |row|
    ensures forall j :: 0 <= j < |CellCandidates(row, n)| ==> Contains(CellCandidates(row, n)[j], FundMarker)
  {
    if n > 0 {
      CellCandidatesMention(row, n - 1);
    }
  }

  lemma {:induction false} RowCandidatesMention(grid: seq<seq<string>>, n: nat)
    requires n <= |grid|
    ensures forall j :: 0 <= j < |RowCandidates(grid, n)| ==> Contains(RowCandidates(grid, n)[j], FundMarker)
  {
    if n > 0 {
      RowCandidatesMention(grid, n - 1);
      CellCandidatesMention(grid[n - 1], |grid[n - 1]|);
    }
  }

  lemma {:induction false} CandidatesMention(wb: Workbook, n: nat)
    requires n <= |wb|
    ensures forall j :: 0 <= j < |SheetCandidates(wb, n)| ==> Contains(SheetCandidates(wb, n)[j], FundMarker)
  {
    if n > 0 {
      CandidatesMention(wb, n - 1);
      RowCandidatesMention(wb[n - 1].grid, Min(|wb[n - 1].grid|, 5));
    }
  }

  /** Every cell that mentions 基金 in the first five rows of the first three
      sheets, trimmed, in scan order. */
  function Candidates(wb: Workbook): seq<string> {
    SheetCandidates(wb, Min(|wb|, 3))
  }

  /** The scan that keeps a candidate only when it is strictly longer, lengths
      being `.length`, in UTF-16 code units. */
  function Longest(c: seq<string>): string {
    if c == [] then ""
    else
      var l := Longest(c[..|c| - 1]);
      if Utf16Length(c[|c| - 1]) > Utf16Length(l) then c[|c| - 1] else l
  }

  /** `c[i]` is as long as every candidate and strictly longer than each
      earlier one, in UTF-16 code units. */
  predicate FirstLongestAt(c: seq<string>, i: int) {
    && 0 <= i < |c|
    && (forall j :: 0 <= j < |c| ==> Utf16Length(c[j]) <= Utf16Length(c[i]))
    && (forall j :: 0 <= j < i ==> Utf16Length(c[j]) < Utf16Length(c[i]))
  }

  lemma {:induction false} LongestIsFirstLongest(c: seq<string>)
    ensures c == [] ==> Longest(c) == ""
    ensures forall j :: 0 <= j < |c| ==> Utf16Length(c[j]) <= Utf16Length(Longest(c))
    ensures c != [] ==> exists i :: 0 <= i < |c| && c[i] == Longest(c) && forall j :: 0 <= j < i ==> Utf16Length(c[j]) < Utf16Length(Longest(c))
  {
    if c != [] {
      var init, x := c[..|c| - 1], c[|c| - 1];
      LongestIsFirstLongest(init);
      var l := Longest(init);
      var m := Longest(c);
      assert m == if Utf16Length(x) > Utf16Length(l) then x else l;
      forall j | 0 <= j < |c|
        ensures Utf16Length(c[j]) <= Utf16Length(m)
      {
        if j < |init| {
          assert c[j] == init[j];
        }
      }
      if Utf16Length(x) > Utf16Length(l) {
        forall j | 0 <= j < |c| - 1
          ensures Utf16Length(c[j]) < Utf16Length(m)
        {
          assert c[j] == init[j];
        }
        assert c[|c| - 1] == m;
      } else if init == [] {
        assert c[0] == m;
      } else {
        var i :| 0 <= i < |init| && init[i] == l && forall j :: 0 <= j < i ==> Utf16Length(init[j]) < Utf16Length(l);
        forall j | 0 <= j < i
          ensures Utf16Length(c[j]) < Utf16Length(m)
        {
          assert c[j] == init[j];
        }
        assert c[i] == m;
      }
    }
  }

  /** A character outside the Basic Multilingual Plane counts twice: of a
      three-character cell holding one and a four-character cell after it,
      both of `.length` 4, the scan keeps the first. */
  lemma SurrogatePairCountsTwice()
    ensures Longest(["\U{2000B}基金", "甲乙基金"]) == "\U{2000B}基金"
  {
    assert Utf16Length("\U{2000B}基金") == 4 by {
      assert "\U{2000B}基金"[..2] == "\U{2000B}基";
      assert "\U{2000B}基"[..1] == "\U{2000B}";
      assert "\U{2000B}"[..0] == "";
    }
    assert Utf16Length("甲乙基金") == 4 by {
      assert "甲乙基金"[..3] == "甲乙基";
      assert "甲乙基"[..2] == "甲乙";
      assert "甲乙"[..1] == "甲";
      assert "甲"[..0] == "";
    }
    assert ["\U{2000B}基金", "甲乙基金"][..1] == ["\U{2000B}基金"];
    assert ["\U{2000B}基金"][..0] == [];
  }

  /** The first `k` removable parts removed, each at its first occurrence. */
  function RemovePartsUpTo(s: string, k: nat): string
    requires k <= |RemovableParts|
  {
    if k == 0 then s else RemoveFirst(RemovePartsUpTo(s, k - 1), RemovableParts[k - 1])
  }

  /** The `removableParts.forEach` loop of extractFundName. */
  method RemoveParts(s: string) returns (r: string)
    ensures r == RemovePartsUpTo(s, |RemovableParts|)
  {
    r := s;
    var k := 0;
    while k < |RemovableParts|
      invariant 0 <= k <= |RemovableParts|
      invariant r == RemovePartsUpTo(s, k)
    {
      r := RemoveFirst(r, RemovableParts[k]);
      k := k + 1;
    }
  }

  /** extractFundName: the longest candidate (the first on a tie) with the
      statement names removed and trimmed, or null when there is none. */
  function FundNameOf(wb: Workbook): Option<string> {
    var l := Longest(Candidates(wb));
    if l != "" then Some(Trim(RemovePartsUpTo(l, |RemovableParts|))) else None
  }

  lemma ContainsIsLonger(s: string, p: string)
    requires Contains(s, p)
    ensures |p| <= |s|
    decreases |s|
  {
  }

  /** extractFundName returns null exactly when no scanned cell mentions 基金;
      otherwise it starts from the first longest such cell. */
  lemma FundNameCases(wb: Workbook)
    ensures FundNameOf(wb).None? <==> Candidates(wb) == []
    ensures Candidates(wb) != [] ==>
      exists i :: FirstLongestAt(Candidates(wb), i) && FundNameOf(wb) == Some(Trim(RemovePartsUpTo(Candidates(wb)[i], |RemovableParts|)))
  {
    var c := Candidates(wb);
    LongestIsFirstLongest(c);
    if c != [] {
      CandidatesMention(wb, Min(|wb|, 3));
      ContainsIsLonger(c[0], FundMarker);
      assert Utf16Length(Longest(c)) >= Utf16Length(c[0]) >= |c[0]| >= 2;
    }
  }

  lemma {:induction false} NoMarkerNoCandidates(row: seq<string>, n: nat)
    requires n <= |row|
    requires !Contains(Join(row, ""), FundMarker)
    ensures CellCandidates(row, n) == []
  {
    if n > 0 {
      NoMarkerNoCandidates(row, n - 1);
      if Contains(Trim(row[n - 1]), FundMarker) {
        TrimKeepsContains(row[n - 1], FundMarker);
        JoinContainsCell(row, "", n - 1, FundMarker);
      }
    }
  }

  lemma LongestSnoc(c: seq<string>, x: string)
    ensures Longest(c + [x]) == if Utf16Length(x) > Utf16Length(Longest(c)) then x else Longest(c)
  {
    assert (c + [x])[..|c|] == c;
  }

  /** One cell of the scan: a cell mentioning 基金 replaces the longest name
      so far only when it is strictly longer. */
  lemma LongestCellStep(row: seq<string>, before: seq<string>, k: nat)
    requires k < |row|
    ensures var cell := Trim(row[k]);
      var l := Longest(before + CellCandidates(row, k));
      Longest(before + CellCandidates(row, k + 1)) == if Contains(cell, FundMarker) && Utf16Length(cell) > Utf16Length(l) then cell else l
  {
    var sofar := before + CellCandidates(row, k);
    var cell := Trim(row[k]);
    if Contains(cell, FundMarker) {
      assert before + CellCandidates(row, k + 1) == sofar + [cell];
      LongestSnoc(sofar, cell);
    } else {
      assert before + CellCandidates(row, k + 1) == sofar;
    }
  }

  /** The scan of the first five rows of one sheet, continuing a scan whose
      candidates so far were `before`. */
  method LongestInSheet(data: seq<seq<string>>, ghost before: seq<string>, longestName: string) returns (r: string)
    requires longestName == Longest(before)
    ensures r == Longest(before + RowCandidates(data, Min(|data|, 5)))
  {
    r := longestName;
    var j := 0;
    assert before + RowCandidates(data, 0) == before;
    while j < Min(|data|, 5)
      invariant 0 <= j <= Min(|data|, 5)
      invariant r == Longest(before + RowCandidates(data, j))
    {
      ghost var prefix := before + RowCandidates(data, j);
      r := LongestInRow(data[j], prefix, r);
      RowCandidatesStep(data, j, before);
      assert r == Longest(before + RowCandidates(data, j + 1));
      j := j + 1;
    }
  }

  lemma RowCandidatesStep(data: seq<seq<string>>, j: nat, before: seq<string>)
    requires j < |data|
    ensures before + RowCandidates(data, j + 1) == before + RowCandidates(data, j) + CellCandidates(data[j], |data[j]|)
  {
    assert RowCandidates(data, j + 1) == RowCandidates(data, j) + CellCandidates(data[j], |data[j]|);
  }

  /** The per-cell loop of extractFundName over one row, continuing a scan
      whose candidates so far were `before`. */
  method LongestInRow(row: seq<string>, ghost before: seq<string>, longestName: string) returns (r: string)
    requires longestName == Longest(before)
    ensures r == Longest(before + CellCandidates(row, |row|))
  {
    r := longestName;
    var fullRowText := Join(row, "");
    if Contains(fullRowText, FundMarker) {
      var k := 0;
      assert before + CellCandidates(row, 0) == before;
      while k < |row|
        invariant 0 <= k <= |row|
        invariant r == Longest(before + CellCandidates(row, k))
      {
        var cellText := Trim(row[k]);
        LongestCellStep(row, before, k);
        if Contains(cellText, FundMarker) && Utf16Length(cellText) > Utf16Length(r) {
          r := cellText;
        }
        k := k + 1;
      }
    } else {
      NoMarkerNoCandidates(row, |row|);
      assert before + CellCandidates(row, |row|) == before;
    }
  }

  /** extractFundName */
  method ExtractFundName(wb: Workbook) returns (name: Option<string>)
    ensures name == FundNameOf(wb)
  {
    var longestName := "";
    var sheets := Min(|wb|, 3);
    var i := 0;
    while i < sheets
      invariant 0 <= i <= sheets <= |wb|
      invariant longestName == Longest(SheetCandidates(wb, i))
    {
      longestName := LongestInSheet(wb[i].grid, SheetCandidates(wb, i), longestName);
      i := i + 1;
    }
    assert longestName == Longest(Candidates(wb));
    if longestName != "" {
      longestName := RemoveParts(longestName);
      name := Some(Trim(longestName));
    } else {
      name := None;
    }
  }

}
