/** The page state of main.js and the two operations on it that do more than
    draw: handleFiles, which joins every file's extracted statements, and
    displayAggregated, which sums them over all funds. */
module Session {
  import opened Records
  import opened Config
  import opened Sorting
  import opened Aggregate
  import Parsers

  /** A file dropped on the page, once read and decoded. */
  datatype InputFile = InputFile(name: string, workbook: Workbook)

  // ------------------------------------------------------------ handleFiles

  /** `Promise.all(files.map(processFile))` keeping the results that are not
      null, in the order of the files. */
  function Successful(files: seq<InputFile>, t: FundType): (r: seq<Parsers.FileResult>)
    ensures |r| <= |files|
    decreases |files|
  {
    if files == [] then []
    else
      var last := files[|files| - 1];
      var rest := Successful(files[..|files| - 1], t);
      match Parsers.FileResultOf(last.workbook, last.name, t)
      case None => rest
      case Some(x) => rest + [x]
  }

  /** The comparator of the sort: `a.fileName.localeCompare(b.fileName)`,
      with the collation given as `le`. */
  function ByFileName(le: (string, string) -> bool): (Parsers.FileResult, Parsers.FileResult) -> bool {
    (a: Parsers.FileResult, b: Parsers.FileResult) => le(a.fileName, b.fileName)
  }

  /** The successful results in file-name order. */
  function SortedResults(files: seq<InputFile>, t: FundType, le: (string, string) -> bool): seq<Parsers.FileResult> {
    SortBy(Successful(files, t), ByFileName(le))
  }

  /** `fundNames = results.map(r => r.fundName)` */
  function FundNamesOf(results: seq<Parsers.FileResult>): (r: seq<string>)
    ensures |r| == |results|
    decreases |results|
  {
    if results == [] then [] else FundNamesOf(results[..|results| - 1]) + [results[|results| - 1].fundName]
  }

  /** `results.forEach(r => { fundFileMap[r.fundName] = r.fileName; })` */
  function FileMap(results: seq<Parsers.FileResult>): map<string, string>
    decreases |results|
  {
    if results == [] then map[]
    else
      var last := results[|results| - 1];
      FileMap(results[..|results| - 1])[last.fundName := last.fileName]
  }

  /** The list filed under `k`, or none. */
  function Get(d: Parsers.Extracted, k: string): seq<Record> {
    if k in d then d[k] else []
  }

  /** One file's statements appended to the joined data, key by key. */
  function MergeInto(acc: Parsers.Extracted, d: Parsers.Extracted): Parsers.Extracted {
    map k | k in acc.Keys + d.Keys :: Get(acc, k) + Get(d, k)
  }

  /** `allExtractedData` once every result has been joined, in order. */
  function Joined(results: seq<Parsers.FileResult>): Parsers.Extracted
    decreases |results|
  {
    if results == [] then map[]
    else MergeInto(Joined(results[..|results| - 1]), results[|results| - 1].data)
  }

  /** The rows filed under `k` by the given results, file after file: an
      independent statement of what joining produces for one key. */
  function RowsOf(results: seq<Parsers.FileResult>, k: string): seq<Record>
    decreases |results|
  {
    if results == [] then [] else Get(results[0].data, k) + RowsOf(results[1..], k)
  }

  /** Whether some result filed a list under `k`. */
  predicate FiledBySome(results: seq<Parsers.FileResult>, k: string) {
    exists i :: 0 <= i < |results| && k in results[i].data
  }

  /** The rows a result files under `k` follow the rows of earlier results. */
  lemma {:induction false} RowsOfSnoc(results: seq<Parsers.FileResult>, x: Parsers.FileResult, k: string)
    ensures RowsOf(results + [x], k) == RowsOf(results, k) + Get(x.data, k)
    decreases |results|
  {
    if results == [] {
      assert RowsOf([x], k) == Get(x.data, k) + RowsOf([], k);
    } else {
      assert (results + [x])[1..] == results[1..] + [x];
      RowsOfSnoc(results[1..], x, k);
    }
  }

  /** Joining files keeps a key exactly when some file filed it, and the
      key's list is every file's rows for it, in file order. */
  lemma {:induction false} JoinedMeaning(results: seq<Parsers.FileResult>)
    ensures forall k :: k in Joined(results) <==> FiledBySome(results, k)
    ensures forall k :: k in Joined(results) ==> Joined(results)[k] == RowsOf(results, k)
    decreases |results|
  {
    if results != [] {
      var init := results[..|results| - 1];
      var x := results[|results| - 1];
      JoinedMeaning(init);
      assert results == init + [x];
      forall k
        ensures k in Joined(results) <==> FiledBySome(results, k)
        ensures k in Joined(results) ==> Joined(results)[k] == RowsOf(results, k)
      {
        RowsOfSnoc(init, x, k);
        if FiledBySome(results, k) {
          var i :| 0 <= i < |results| && k in results[i].data;
          if i < |init| {
            assert k in init[i].data;
          }
        }
        if FiledBySome(init, k) {
          var i :| 0 <= i < |init| && k in init[i].data;
          assert k in results[i].data;
        }
        if k in Joined(init) {
          assert Get(Joined(init), k) == RowsOf(init, k);
        } else {
          RowsOfAbsent(init, k);
        }
      }
    }
  }

  /** A key no file filed has no rows. */
  lemma {:induction false} RowsOfAbsent(results: seq<Parsers.FileResult>, k: string)
    requires !FiledBySome(results, k)
    ensures RowsOf(results, k) == []
    decreases |results|
  {
    if results != [] {
      assert k !in results[0].data;
      assert !FiledBySome(results[1..], k) by {
        forall i | 0 <= i < |results| - 1
          ensures k !in results[1..][i].data
        {
          assert results[1..][i] == results[i + 1];
        }
      }
      RowsOfAbsent(results[1..], k);
    }
  }

  /** Joining keeps two properties processFile guarantees of each result:
      every list is non-empty, and every key is among `keys`. */
  lemma {:induction false} JoinedShape(results: seq<Parsers.FileResult>, keys: set<string>)
    requires forall i :: 0 <= i < |results| ==> Parsers.NonEmptyLists(results[i].data) && results[i].data.Keys <= keys
    ensures Parsers.NonEmptyLists(Joined(results))
    ensures Joined(results).Keys <= keys
    decreases |results|
  {
    if results != [] {
      JoinedShape(results[..|results| - 1], keys);
    }
  }

  /** fundFileMap has a key for each fund name and no other. */
  lemma {:induction false} FileMapKeys(results: seq<Parsers.FileResult>)
    ensures forall f :: f in FileMap(results) <==> f in FundNamesOf(results)
    decreases |results|
  {
    if results != [] {
      FileMapKeys(results[..|results| - 1]);
    }
  }

  /** fundFileMap maps each fund name to the file name of the last result
      with that name. */
  lemma {:induction false} FileMapLast(results: seq<Parsers.FileResult>, i: nat)
    requires i < |results|
    requires forall j :: i < j < |results| ==> results[j].fundName != results[i].fundName
    ensures results[i].fundName in FileMap(results) && FileMap(results)[results[i].fundName] == results[i].fileName
    decreases |results|
  {
    if i < |results| - 1 {
      var init := results[..|results| - 1];
      assert init[i] == results[i];
      FileMapLast(init, i);
    }
  }

  lemma {:induction false} FundNamesOfAt(results: seq<Parsers.FileResult>)
    ensures forall i :: 0 <= i < |results| ==> FundNamesOf(results)[i] == results[i].fundName
    decreases |results|
  {
    if results != [] {
      FundNamesOfAt(results[..|results| - 1]);
    }
  }

  /** Every result processFile hands back for a fund type has only non-empty
      lists, under report keys that type's parsers file. */
  lemma {:induction false} SuccessfulShape(files: seq<InputFile>, t: FundType)
    ensures forall x :: x in Successful(files, t) ==> LoadedFor(t, x.data)
    decreases |files|
  {
    if files != [] {
      var last := files[|files| - 1];
      SuccessfulShape(files[..|files| - 1], t);
      FileResultLoaded(last.workbook, last.name, t);
      LastResultLoaded(Successful(files[..|files| - 1], t), Successful(files, t), Parsers.FileResultOf(last.workbook, last.name, t), t);
    }
  }

  lemma FileResultLoaded(wb: Workbook, fileName: string, t: FundType)
    ensures var result := Parsers.FileResultOf(wb, fileName, t);
      result.Some? ==> LoadedFor(t, result.value.data)
  {
    Parsers.ProcessFileMeaning(wb, fileName, t);
  }

  lemma LastResultLoaded(rest: seq<Parsers.FileResult>, all: seq<Parsers.FileResult>, result: Option<Parsers.FileResult>, t: FundType)
    requires all == rest + (if result.Some? then [result.value] else [])
    requires forall x :: x in rest ==> LoadedFor(t, x.data)
    requires result.Some? ==> LoadedFor(t, result.value.data)
    ensures forall x :: x in all ==> LoadedFor(t, x.data)
  {
  }

  lemma SortedShape(files: seq<InputFile>, t: FundType, le: (string, string) -> bool)
    ensures var keys := Parsers.KeysUpTo(ActiveConfig(t), |ActiveConfig(t)|);
      var results := SortedResults(files, t, le);
      forall i :: 0 <= i < |results| ==> Parsers.NonEmptyLists(results[i].data) && results[i].data.Keys <= keys
  {
    var results := SortedResults(files, t, le);
    SuccessfulShape(files, t);
    SortByPermutation(Successful(files, t), ByFileName(le));
    forall i | 0 <= i < |results|
      ensures results[i] in Successful(files, t)
    {
      assert results[i] in multiset(results);
    }
  }

  /** The data handleFiles joins for a fund type has non-empty lists under
      that type's report keys. */
  lemma JoinedFilesShape(files: seq<InputFile>, t: FundType, le: (string, string) -> bool)
    ensures var joined := Joined(SortedResults(files, t, le));
      Parsers.NonEmptyLists(joined) && joined.Keys <= Parsers.KeysUpTo(ActiveConfig(t), |ActiveConfig(t)|)
  {
    SortedShape(files, t, le);
    JoinedShape(SortedResults(files, t, le), Parsers.KeysUpTo(ActiveConfig(t), |ActiveConfig(t)|));
  }

  // ------------------------------------------------------ displayAggregated

  /** `summaryData`: every report key with a schema, aggregated. */
  function SummaryData(t: FundType, data: Parsers.Extracted, template: seq<string>, parse: NumberReader): Parsers.Extracted {
    map k | k in data && Lookup(ActiveConfig(t), BaseKey(k)).Some? :: AggregateReport(t, k, data[k], template, parse).GetOr([])
  }

  /** The summed view of joined data: a report key appears exactly when it
      has a schema, and every summed row holds, per numeric column, the sum of
      that column over every fund's rows with the same account; the business
      profit-and-loss reclassification never applies to data joined from
      business files. */
  lemma SummaryMeaning(t: FundType, data: Parsers.Extracted, template: seq<string>, parse: NumberReader)
    requires data.Keys <= Parsers.KeysUpTo(ActiveConfig(t), |ActiveConfig(t)|)
    ensures var summary := SummaryData(t, data, template, parse);
      && (forall k :: k in summary <==> k in data && Lookup(ActiveConfig(t), BaseKey(k)).Some?)
      && forall k :: k in summary ==>
        var schema := Lookup(ActiveConfig(t), BaseKey(k)).value;
        summary[k] == GroupedRows(data[k], schema.keyColumn, NumericColumns(schema), parse, t == Business)
  {
    var summary := SummaryData(t, data, template, parse);
    Parsers.ProfitLossKeyNotFiled();
  }

  /** Each summed row carries, in each numeric column, the total of that
      column over all rows with the row's account. */
  lemma SummaryTotals(t: FundType, data: Parsers.Extracted, template: seq<string>, parse: NumberReader, k: string)
    requires data.Keys <= Parsers.KeysUpTo(ActiveConfig(t), |ActiveConfig(t)|)
    requires k in SummaryData(t, data, template, parse)
    ensures var schema := Lookup(ActiveConfig(t), BaseKey(k)).value;
      var out := SummaryData(t, data, template, parse)[k];
      forall i, c :: 0 <= i < |out| && c in NumericColumns(schema) && GroupKey(out[i], schema.keyColumn).Some? ==>
        Field(out[i], c) == Num(ColumnSum(data[k], schema.keyColumn, GroupKey(out[i], schema.keyColumn).value, c,
                                          |data[k]|, parse, t == Business))
  {
    var schema := Lookup(ActiveConfig(t), BaseKey(k)).value;
    SummaryMeaning(t, data, template, parse);
    SchemaColumns(t, BaseKey(k));
    GroupedSums(data[k], schema.keyColumn, NumericColumns(schema), parse, t == Business);
  }

  // ----------------------------------------------------------- page state

  /** The page's invariant over its four pieces of state. */
  ghost predicate PageInvariant(selected: Option<FundType>, data: Parsers.Extracted, names: seq<string>,
                                fileMap: map<string, string>)
  {
    match selected
    case None => data == map[] && names == [] && fileMap == map[]
    case Some(t) => LoadedFor(t, data)
  }

  /** Every list is non-empty and filed under a key the fund type's parsers
      produce. */
  ghost predicate LoadedFor(t: FundType, data: Parsers.Extracted) {
    Parsers.NonEmptyLists(data) && data.Keys <= Parsers.KeysUpTo(ActiveConfig(t), |ActiveConfig(t)|)
  }

  class Page {
    var selectedFundType: Option<FundType>
    var allExtractedData: Parsers.Extracted
    var fundNames: seq<string>
    var fundFileMap: map<string, string>

    /** Without a fund type nothing is loaded; with one, every list is
        non-empty and filed under a key that type's parsers produce. */
    ghost predicate Valid()
      reads this
    {
      PageInvariant(selectedFundType, allExtractedData, fundNames, fundFileMap)
    }

    constructor ()
      ensures Valid()
      ensures selectedFundType == None && allExtractedData == map[] && fundNames == [] && fundFileMap == map[]
    {
      selectedFundType := None;
      allExtractedData := map[];
      fundNames := [];
      fundFileMap := map[];
    }

    /** The fund-type radio buttons, shown only while no type is selected. */
    method SelectFundType(t: FundType)
      requires Valid() && selectedFundType == None
      modifies this
      ensures Valid()
      ensures selectedFundType == Some(t)
      ensures allExtractedData == old(allExtractedData) && fundNames == old(fundNames) && fundFileMap == old(fundFileMap)
    {
      selectedFundType := Some(t);
    }

    /** resetState: the loaded data cleared, and the fund type too on a full
        reset. */
    method ResetState(fullReset: bool)
      requires Valid()
      modifies this
      ensures Valid()
      ensures allExtractedData == map[] && fundNames == [] && fundFileMap == map[]
      ensures selectedFundType == if fullReset then None else old(selectedFundType)
    {
      allExtractedData := map[];
      fundNames := [];
      fundFileMap := map[];
      if fullReset {
        selectedFundType := None;
      }
    }

    /** handleFiles: nothing without a fund type or without files; otherwise
        the page is reset, every file processed, the successful results sorted
        by file name, and their statements joined. */
    method HandleFiles(files: seq<InputFile>, le: (string, string) -> bool)
      requires Valid()
      modifies this
      ensures Valid()
      ensures selectedFundType == old(selectedFundType)
      ensures old(selectedFundType).None? || files == [] ==>
        allExtractedData == old(allExtractedData) && fundNames == old(fundNames) && fundFileMap == old(fundFileMap)
      ensures old(selectedFundType).Some? && files != [] ==>
        var results := SortedResults(files, old(selectedFundType).value, le);
        && allExtractedData == Joined(results)
        && fundNames == FundNamesOf(results)
        && fundFileMap == FileMap(results)
    {
      if selectedFundType.None? || files == [] {
        return;
      }
      ResetState(false);
      Load(files, le);
    }

    /** The rest of handleFiles, once the page is reset. */
    method Load(files: seq<InputFile>, le: (string, string) -> bool)
      requires Valid() && selectedFundType.Some?
      modifies this
      ensures Valid()
      ensures selectedFundType == old(selectedFundType)
      ensures var results := SortedResults(files, selectedFundType.value, le);
        && allExtractedData == Joined(results)
        && fundNames == FundNamesOf(results)
        && fundFileMap == FileMap(results)
    {
      var fileMap, names, joined := LoadFiles(files, selectedFundType.value, le);
      assert PageInvariant(selectedFundType, joined, names, fileMap);
      fundFileMap, fundNames, allExtractedData := fileMap, names, joined;
    }

    /** displayAggregated: each report key with a schema summed over all
        funds. */
    method DisplayAggregated(template: seq<string>, parse: NumberReader) returns (summary: Parsers.Extracted)
      requires Valid()
      ensures selectedFundType.None? ==> summary == map[]
      ensures selectedFundType.Some? ==> summary == SummaryData(selectedFundType.value, allExtractedData, template, parse)
    {
      summary := map[];
      if selectedFundType.None? {
        return;
      }
      summary := Summarize(selectedFundType.value, allExtractedData, template, parse);
    }
  }

  /** displayAggregated's loop: every report key with a schema aggregated. */
  method Summarize(t: FundType, data: Parsers.Extracted, template: seq<string>, parse: NumberReader)
    returns (summary: Parsers.Extracted)
    ensures summary == SummaryData(t, data, template, parse)
  {
    summary := map[];
    var keys := data.Keys;
    while keys != {}
      invariant keys <= data.Keys
      invariant forall k :: k in summary <==> k in data && k !in keys && Lookup(ActiveConfig(t), BaseKey(k)).Some?
      invariant forall k :: k in summary ==> summary[k] == AggregateReport(t, k, data[k], template, parse).GetOr([])
      decreases keys
    {
      var reportKey :| reportKey in keys;
      var aggregatedRows := AggregateRows(t, reportKey, data[reportKey], template, parse);
      if aggregatedRows.Some? {
        summary := summary[reportKey := aggregatedRows.value];
      }
      keys := keys - {reportKey};
    }
    SummaryDataPointwise(t, data, template, parse, summary);
  }

  /** A map with exactly the summary's keys and values is the summary. */
  lemma SummaryDataPointwise(t: FundType, data: Parsers.Extracted, template: seq<string>, parse: NumberReader,
                             summary: Parsers.Extracted)
    requires forall k :: k in summary <==> k in data && Lookup(ActiveConfig(t), BaseKey(k)).Some?
    requires forall k :: k in summary ==> summary[k] == AggregateReport(t, k, data[k], template, parse).GetOr([])
    ensures summary == SummaryData(t, data, template, parse)
  {
  }

  /** `for (const reportKey in result.data)` appending each list to the
      joined data. */
  method JoinResult(acc: Parsers.Extracted, d: Parsers.Extracted) returns (r: Parsers.Extracted)
    ensures r == MergeInto(acc, d)
  {
    r := acc;
    var keys := d.Keys;
    while keys != {}
      invariant keys <= d.Keys
      invariant forall k :: k in r <==> k in acc || (k in d && k !in keys)
      invariant forall k :: k in r ==> r[k] == Get(acc, k) + (if k in keys then [] else Get(d, k))
      decreases keys
    {
      var k :| k in keys;
      if k !in r {
        r := r[k := []];
      }
      r := r[k := r[k] + d[k]];
      keys := keys - {k};
    }
  }

  /** `Promise.all(files.map(processFile))`, keeping the non-null results. */
  method ProcessAll(files: seq<InputFile>, t: FundType) returns (results: seq<Parsers.FileResult>)
    ensures results == Successful(files, t)
  {
    results := [];
    var i := 0;
    while i < |files|
      invariant i <= |files|
      invariant results == Successful(files[..i], t)
    {
      assert files[..i + 1][..i] == files[..i];
      var r := Parsers.ProcessFile(files[i].workbook, files[i].name, t);
      if r.Some? {
        results := results + [r.value];
      }
      i := i + 1;
    }
    assert files[..|files|] == files;
  }

  /** The three passes of handleFiles over the sorted results: the file map,
      the fund names and the joined statements. */
  method JoinAll(results: seq<Parsers.FileResult>)
    returns (fileMap: map<string, string>, names: seq<string>, joined: Parsers.Extracted)
    ensures fileMap == FileMap(results)
    ensures names == FundNamesOf(results)
    ensures joined == Joined(results)
  {
    fileMap := map[];
    names := [];
    joined := map[];
    var n := 0;
    while n < |results|
      invariant n <= |results|
      invariant fileMap == FileMap(results[..n])
      invariant names == FundNamesOf(results[..n])
      invariant joined == Joined(results[..n])
    {
      assert results[..n + 1][..n] == results[..n];
      fileMap := fileMap[results[n].fundName := results[n].fileName];
      names := names + [results[n].fundName];
      joined := JoinResult(joined, results[n].data);
      n := n + 1;
    }
    assert results[..|results|] == results;
  }

  /** The work of handleFiles once the page is reset: every file processed,
      the successful results sorted by file name and joined. */
  method LoadFiles(files: seq<InputFile>, t: FundType, le: (string, string) -> bool)
    returns (fileMap: map<string, string>, names: seq<string>, joined: Parsers.Extracted)
    ensures var results := SortedResults(files, t, le);
      fileMap == FileMap(results) && names == FundNamesOf(results) && joined == Joined(results)
    ensures LoadedFor(t, joined)
  {
    var results := ProcessAll(files, t);
    results := SortBy(results, ByFileName(le));
    fileMap, names, joined := JoinAll(results);
    JoinedFilesShape(files, t, le);
  }
}
