/** The static schema registry (config.js): for each fund category, the report
    kinds in declaration order, each with its parser tag, sheet keyword, key
    column and ordered column list. */
module Config {
  import opened Records

  /** A report kind: its report key and its schema. */
  datatype ReportKind = ReportKind(name: string, schema: ReportSchema)

  type Category = seq<ReportKind>

  /** The three fund categories a user can select. */
  datatype FundType = Operating | Governmental | Business {
    function Name(): string {
      match this
      case Operating => "operating"
      case Governmental => "governmental"
      case Business => "business"
    }
  }

  const OperatingConfig: Category := [
    ReportKind("收支表", ReportSchema("dynamic_normal", "收支", "科目",
      ["科目", "預算數", "原列決算數", "修正數", "決算核定數", "預算數與決算核定數比較增減"])),
    ReportKind("撥補表", ReportSchema("dynamic_normal", "撥補", "項目",
      ["項目", "預算數", "原列決算數", "修正數", "決算核定數", "預算數與決算核定數比較增減"])),
    ReportKind("現流表", ReportSchema("dynamic_normal", "現流", "項目",
      ["項目", "預算數", "決算核定數", "比較增減"])),
    ReportKind("平衡表", ReportSchema("balance_sheet", "平衡", "科目",
      ["科目", "本年度決算核定數", "上年度決算審定數", "比較增減"]))
  ]

  const GovernmentalConfig: Category := [
    ReportKind("餘絀表", ReportSchema("fixed_yuchu", "餘絀", "項目",
      ["項目", "預算數", "原列決算數", "修正數", "決算核定數", "預算與決算核定數比較增減"])),
    ReportKind("收支表", ReportSchema("fixed_shouzhi", "收支", "科目",
      ["科目", "原列決算數", "修正數", "決算核定數"])),
    ReportKind("現流表", ReportSchema("fixed_xianliu", "現流", "項目",
      ["項目", "決算核定數"])),
    ReportKind("平衡表", ReportSchema("balance_sheet", "平衡", "科目",
      ["科目", "本年度決算核定數", "上年度決算審定數", "比較增減"]))
  ]

  const BusinessConfig: Category := [
    ReportKind("損益表", ReportSchema("fixed_business_profitloss", "損益", "科目",
      ["科目", "上年度決算數", "本年度預算數", "原列決算數", "修正數", "決算核定數"])),
    ReportKind("盈虧撥補表", ReportSchema("fixed_business_appropriation", "盈虧", "項目",
      ["項目", "上年度決算數", "本年度預算數", "原列決算數", "修正數", "決算核定數"])),
    ReportKind("現金流量表", ReportSchema("fixed_business_cashflow", "現流", "項目",
      ["項目", "本年度預算數", "原列決算數", "修正數", "決算核定數"])),
    ReportKind("資產負債表", ReportSchema("fixed_business_balancesheet", "資負", "科目",
      ["科目", "上年度決算數", "原列決算數", "修正數", "決算核定數"]))
  ]

  /** FULL_CONFIG, keyed by the category's name. */
  const FullConfig: map<string, Category> := map[
    "operating" := OperatingConfig,
    "governmental" := GovernmentalConfig,
    "business" := BusinessConfig
  ]

  /** `FULL_CONFIG[selectedFundType]` */
  function ActiveConfig(t: FundType): (c: Category)
    ensures t.Name() in FullConfig && FullConfig[t.Name()] == c
  {
    FullConfig[t.Name()]
  }

  /** `activeConfig[reportKey]`: the schema declared under that report key. */
  function Lookup(c: Category, key: string): (r: Option<ReportSchema>)
    ensures r.None? <==> forall i :: 0 <= i < |c| ==> c[i].name != key
    ensures r.Some? ==> exists i :: 0 <= i < |c| && c[i].name == key && c[i].schema == r.value
    decreases |c|
  {
    if c == [] then None
    else if c[0].name == key then Some(c[0].schema)
    else Lookup(c[1..], key)
  }

  /** The report keys that name a balance sheet, whose parser splits it in two. */
  predicate IsBalanceSheetKey(key: string) {
    key == "平衡表" || key == "資產負債表"
  }

  /** FULL_CONFIG has exactly the three selectable categories. */
  lemma FullConfigCategories()
    ensures FullConfig.Keys == {"operating", "governmental", "business"}
    ensures forall t: FundType :: t.Name() in FullConfig
  {
  }

  /** Every entry's key column is the first column, and is 科目 or 項目. */
  lemma KeyColumnLeads(t: FundType)
    ensures forall i :: 0 <= i < |ActiveConfig(t)| ==>
      var s := ActiveConfig(t)[i].schema;
      |s.columns| > 0 && s.keyColumn == s.columns[0] && (s.keyColumn == "科目" || s.keyColumn == "項目")
  {
  }

  /** Each category has four report kinds, with distinct report keys and
      distinct sheet keywords. */
  lemma KindsDistinct(t: FundType)
    ensures |ActiveConfig(t)| == 4
    ensures forall i, j :: 0 <= i < j < 4 ==> ActiveConfig(t)[i].name != ActiveConfig(t)[j].name
    ensures forall i, j :: 0 <= i < j < 4 ==>
      ActiveConfig(t)[i].schema.sheetKeyword != ActiveConfig(t)[j].schema.sheetKeyword
  {
  }

  /** Each category has exactly one balance-sheet kind, declared last. */
  lemma OneBalanceSheet(t: FundType)
    ensures IsBalanceSheetKey(ActiveConfig(t)[3].name)
    ensures forall i :: 0 <= i < 3 ==> !IsBalanceSheetKey(ActiveConfig(t)[i].name)
  {
  }

  /** No column name occurs twice in a list. */
  predicate Distinct(cols: seq<string>) {
    forall i, j :: 0 <= i < j < |cols| ==> cols[i] != cols[j]
  }

  /** Every schema lists distinct columns, so each column is summed once. */
  lemma ColumnsDistinct(t: FundType)
    ensures forall i :: 0 <= i < |ActiveConfig(t)| ==> Distinct(ActiveConfig(t)[i].schema.columns)
  {
    match t
    case Operating => CategoryColumnsDistinct(OperatingConfig);
    case Governmental => CategoryColumnsDistinct(GovernmentalConfig);
    case Business => BusinessColumnsDistinct();
  }

  lemma CategoryColumnsDistinct(cat: Category)
    requires cat == OperatingConfig || cat == GovernmentalConfig
    ensures forall i :: 0 <= i < |cat| ==> Distinct(cat[i].schema.columns)
  {
  }

  lemma BusinessColumnsDistinct()
    ensures forall i :: 0 <= i < |BusinessConfig| ==> Distinct(BusinessConfig[i].schema.columns)
  {
  }
}
