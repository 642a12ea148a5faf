/**
 * `get_fin_statement` and `get_map_items`: the statements and the
 * chart-of-accounts mapping read from a ReportsFinStatements tree.
 */
module FinStatements {
  import opened Wrappers
  import opened Seqs
  import opened XmlTree
  import opened Conversions
  import opened Objects
  import opened Utils

  // ---------------------------------------------------------------- get_fin_statement

  /** The section element `xpath[period]` descends into. */
  function SectionTag(period: PeriodType): string {
    if period == quarter then "InterimPeriods" else "AnnualPeriods"
  }

  /** `findall(xpath[period])`: the FiscalPeriod children of every section element, in document order. */
  function AllPeriods(root: Node, period: PeriodType): seq<Node> {
    ChildStep(DescendantStep([root], SectionTag(period)), "FiscalPeriod")
  }

  /** `findall(xp_line_ed)`: the period elements, narrowed to one end date when one is given. */
  function PeriodNodes(root: Node, period: PeriodType, endDate: Option<string>): seq<Node> {
    if endDate.Some? then WithAttr(AllPeriods(root, period), "EndDate", endDate.value) else AllPeriods(root, period)
  }

  /** `fperiod.find(".//Source").attrib["Date"]`; AttributeError when the period has no Source element. */
  function SourceDate(fp: Node): Result<string> {
    match FindDescendant(fp, "Source")
    case None => Err(AttributeError("'NoneType' object has no attribute 'attrib'"))
    case Some(s) => Attr(s, "Date")
  }

  /** The metadata dictionary built for one period element, entry by entry. */
  function MetaOf(period: PeriodType, fp: Node): Result<Meta> {
    var t :- Attr(fp, "Type");
    var e :- Attr(fp, "EndDate");
    var y :- Attr(fp, "FiscalYear");
    if period == quarter then
      var n :- Attr(fp, "FiscalPeriodNumber");
      var d :- SourceDate(fp);
      Ok(QuarterMeta(t, e, y, n, d))
    else
      var d :- SourceDate(fp);
      Ok(AnnualMeta(t, e, y, d))
  }

  function MetaReader(period: PeriodType): Node -> Result<Meta> {
    (fp: Node) => MetaOf(period, fp)
  }

  /**
   * `findall(xp_line + xp)`: the lineItem children of the Statement elements
   * of type `code` in every period element of the section dated `ed`.
   */
  function LineItemNodes(root: Node, period: PeriodType, ed: string, code: StatementCode): seq<Node> {
    var periods := WithAttr(AllPeriods(root, period), "EndDate", ed);
    ChildStep(WithAttr(ChildStep(periods, "Statement"), "Type", CodeName(code)), "lineItem")
  }

  /** `i.attrib["coaCode"].lower()`. */
  function CoaKey(n: Node): Result<string> {
    var c :- Attr(n, "coaCode");
    Ok(Lower(c))
  }

  function LineValue(conv: Conv): Node -> Result<Float> {
    (n: Node) => ToFloat(conv, n.text)
  }

  /** `{i.attrib["coaCode"].lower(): float(i.text) for i in fs_line}`. */
  function LineItemMap(conv: Conv, xs: seq<Node>): Result<map<string, Float>> {
    Dict(xs, CoaKey, LineValue(conv))
  }

  /** `ed`: the requested end date when there is one, the period's own otherwise. */
  function PeriodDate(endDate: Option<string>, periodEnd: string): string {
    if endDate.Some? then endDate.value else periodEnd
  }

  /** The line items of the period a metadata dictionary describes. */
  function ItemsOf(conv: Conv, root: Node, code: StatementCode, period: PeriodType, endDate: Option<string>, m: Meta)
    : Result<map<string, Float>>
  {
    LineItemMap(conv, LineItemNodes(root, period, PeriodDate(endDate, m.endDate), code))
  }

  function ItemsReader(conv: Conv, root: Node, code: StatementCode, period: PeriodType, endDate: Option<string>)
    : Meta -> Result<map<string, Float>>
  {
    (m: Meta) => ItemsOf(conv, root, code, period, endDate, m)
  }

  /** `[statement_map[statement](**i, **j) for i, j in zip(fperiods, fs)]`. */
  function BuildAll(cls: StatementClass, metas: seq<Meta>, fs: seq<map<string, Float>>): Result<seq<Statement>> {
    Zip(metas, fs, (m: Meta, items: map<string, Float>) => BuildStatement(cls, m, items))
  }

  /**
   * Zipping builds every record or raises TypeError: it succeeds exactly
   * when every line-item dictionary holds only keys its record accepts.
   */
  lemma BuildAllOk(cls: StatementClass, metas: seq<Meta>, fs: seq<map<string, Float>>)
    requires |metas| == |fs|
    ensures BuildAll(cls, metas, fs).Ok? <==> forall k :: 0 <= k < |fs| ==> Takes(cls, metas[k], fs[k].Keys)
    ensures BuildAll(cls, metas, fs).Err? ==> BuildAll(cls, metas, fs).error.TypeError?
  {
    var g := (m: Meta, items: map<string, Float>) => BuildStatement(cls, m, items);
    ZipOk(metas, fs, g);
    forall k | 0 <= k < |fs|
      ensures g(metas[k], fs[k]).Ok? <==> Takes(cls, metas[k], fs[k].Keys)
    {
      BuildStatementSpec(cls, metas[k], fs[k]);
    }
    if BuildAll(cls, metas, fs).Err? {
      var k :| 0 <= k < |metas| && g(metas[k], fs[k]) == Err(BuildAll(cls, metas, fs).error);
      BuildStatementSpec(cls, metas[k], fs[k]);
    }
  }

  /** Record `k` of a zip that was built is the record built from metadata `k` and dictionary `k`. */
  lemma BuildAllAt(cls: StatementClass, metas: seq<Meta>, fs: seq<map<string, Float>>, k: nat)
    requires |metas| == |fs|
    requires BuildAll(cls, metas, fs).Ok?
    requires k < |metas|
    ensures |BuildAll(cls, metas, fs).value| == |metas|
    ensures BuildStatement(cls, metas[k], fs[k]) == Ok(BuildAll(cls, metas, fs).value[k])
  {
    ZipAt(metas, fs, (m: Meta, items: map<string, Float>) => BuildStatement(cls, m, items), k);
  }

  lemma BuildAllLength(cls: StatementClass, metas: seq<Meta>, fs: seq<map<string, Float>>)
    requires |metas| == |fs|
    requires BuildAll(cls, metas, fs).Ok?
    ensures |BuildAll(cls, metas, fs).value| == |metas|
  {
    ZipLength(metas, fs, (m: Meta, items: map<string, Float>) => BuildStatement(cls, m, items));
  }

  /** What `get_fin_statement` returns for a tree (or the exception it raises). */
  function FinStatement(conv: Conv, root: Node, code: StatementCode, period: PeriodType, endDate: Option<string>)
    : Result<seq<Statement>>
  {
    var metas :- MapResult(PeriodNodes(root, period, endDate), MetaReader(period));
    var fs :- MapResult(metas, ItemsReader(conv, root, code, period, endDate));
    BuildAll(StatementClassOf(code), metas, fs)
  }

  /** `get_fin_statement` on a tree: the metadata list, then one line-item dictionary per period, then the records. */
  method GetFinStatement(conv: Conv, root: Node, code: StatementCode, period: PeriodType, endDate: Option<string>)
    returns (r: Result<seq<Statement>>)
    ensures r == FinStatement(conv, root, code, period, endDate)
  {
    var fp := PeriodNodes(root, period, endDate);
    var fperiods :- MapResult(fp, MetaReader(period));
    ghost var reader := ItemsReader(conv, root, code, period, endDate);
    var fs: seq<map<string, Float>> := [];
    var i := 0;
    while i < |fperiods|
      invariant 0 <= i <= |fperiods|
      invariant MapResult(fperiods[..i], reader) == Ok(fs)
    {
      var ed;
      if endDate.Some? {
        ed := endDate.value;
      } else {
        ed := fperiods[i].endDate;
      }
      var fsLine := LineItemNodes(root, period, ed, code);
      var items := LineItemMap(conv, fsLine);
      ItemsStep(conv, root, code, period, endDate, fperiods, i, fs, ed);
      if items.Err? {
        MapResultPrefixErr(fperiods, reader, i + 1);
        FinStatementOfItems(conv, root, code, period, endDate, fperiods);
        return Err(items.error);
      }
      fs := fs + [items.value];
      i := i + 1;
    }
    assert fperiods[..i] == fperiods;
    FinStatementOfItems(conv, root, code, period, endDate, fperiods);
    r := BuildAll(StatementClassOf(code), fperiods, fs);
  }

  /** One turn of the loop of `GetFinStatement` extends the comprehension over the metadata by one item. */
  lemma ItemsStep(conv: Conv, root: Node, code: StatementCode, period: PeriodType, endDate: Option<string>,
                  fperiods: seq<Meta>, i: nat, fs: seq<map<string, Float>>, ed: string)
    requires i < |fperiods|
    requires ed == PeriodDate(endDate, fperiods[i].endDate)
    requires MapResult(fperiods[..i], ItemsReader(conv, root, code, period, endDate)) == Ok(fs)
    ensures var items := LineItemMap(conv, LineItemNodes(root, period, ed, code));
            MapResult(fperiods[..i + 1], ItemsReader(conv, root, code, period, endDate))
              == if items.Ok? then Ok(fs + [items.value]) else Err(items.error)
  {
    MapResultSnoc(fperiods, ItemsReader(conv, root, code, period, endDate), i, fs);
  }

  /** `FinStatement` once the metadata list is read. */
  lemma FinStatementOfItems(conv: Conv, root: Node, code: StatementCode, period: PeriodType, endDate: Option<string>,
                            fperiods: seq<Meta>)
    requires MapResult(PeriodNodes(root, period, endDate), MetaReader(period)) == Ok(fperiods)
    ensures var fs := MapResult(fperiods, ItemsReader(conv, root, code, period, endDate));
            FinStatement(conv, root, code, period, endDate)
              == if fs.Ok? then BuildAll(StatementClassOf(code), fperiods, fs.value) else Err(fs.error)
  {
  }

  /** One record per period element. */
  lemma FinStatementLength(conv: Conv, root: Node, code: StatementCode, period: PeriodType, endDate: Option<string>)
    requires FinStatement(conv, root, code, period, endDate).Ok?
    ensures |FinStatement(conv, root, code, period, endDate).value| == |PeriodNodes(root, period, endDate)|
  {
    var fp := PeriodNodes(root, period, endDate);
    MapResultOk(fp, MetaReader(period));
    var metas := MapResult(fp, MetaReader(period)).value;
    MapResultOk(metas, ItemsReader(conv, root, code, period, endDate));
    var fs := MapResult(metas, ItemsReader(conv, root, code, period, endDate)).value;
    BuildAllLength(StatementClassOf(code), metas, fs);
  }

  /**
   * One record per period element, in document order, with the statement's
   * class, the period's `Type`, `EndDate` and `FiscalYear` copied as they
   * are, and the filing date of its first Source element: a quarter record
   * also gets the `FiscalPeriodNumber` and keeps `date_10K` empty, an annual
   * record keeps `date_10Q` empty.
   */
  lemma FinStatementRecord(conv: Conv, root: Node, code: StatementCode, period: PeriodType, endDate: Option<string>, k: nat)
    requires FinStatement(conv, root, code, period, endDate).Ok?
    requires k < |PeriodNodes(root, period, endDate)|
    ensures |FinStatement(conv, root, code, period, endDate).value| == |PeriodNodes(root, period, endDate)|
    ensures var fp := PeriodNodes(root, period, endDate)[k];
            var s := FinStatement(conv, root, code, period, endDate).value[k];
            && s.cls == StatementClassOf(code)
            && "Type" in fp.attrib && "EndDate" in fp.attrib && "FiscalYear" in fp.attrib
            && s.period == Some(fp.attrib["Type"])
            && s.endDate == Some(fp.attrib["EndDate"])
            && s.fiscalYear == Some(fp.attrib["FiscalYear"])
            && SourceDate(fp).Ok?
            && (period == quarter ==> "FiscalPeriodNumber" in fp.attrib
                                      && s.periodNumber == Some(PeriodText(fp.attrib["FiscalPeriodNumber"]))
                                      && s.date10Q == SourceDate(fp).value && s.date10K == "")
            && (period == annual ==> s.date10Q == "" && s.date10K == SourceDate(fp).value)
  {
    var fp := PeriodNodes(root, period, endDate);
    MapResultAt(fp, MetaReader(period), k);
    var metas := MapResult(fp, MetaReader(period)).value;
    assert MetaOf(period, fp[k]) == Ok(metas[k]);
    MapResultAt(metas, ItemsReader(conv, root, code, period, endDate), k);
    var fs := MapResult(metas, ItemsReader(conv, root, code, period, endDate)).value;
    BuildAllAt(StatementClassOf(code), metas, fs, k);
    BuildStatementSpec(StatementClassOf(code), metas[k], fs[k]);
  }

  /**
   * The line items of record k are the dictionary read for every period of
   * the section carrying its date (or the requested one). An annual record
   * takes the key `period_number` out of it as its period number, which it
   * otherwise lacks.
   */
  lemma FinStatementItems(conv: Conv, root: Node, code: StatementCode, period: PeriodType, endDate: Option<string>, k: nat)
    requires FinStatement(conv, root, code, period, endDate).Ok?
    requires k < |PeriodNodes(root, period, endDate)|
    ensures |FinStatement(conv, root, code, period, endDate).value| == |PeriodNodes(root, period, endDate)|
    ensures "EndDate" in PeriodNodes(root, period, endDate)[k].attrib
    ensures var fp := PeriodNodes(root, period, endDate)[k];
            var s := FinStatement(conv, root, code, period, endDate).value[k];
            var d := LineItemMap(conv, LineItemNodes(root, period, PeriodDate(endDate, fp.attrib["EndDate"]), code));
            && d.Ok?
            && (period == quarter ==> s.items == d.value)
            && (period == annual ==>
                  && s.items == d.value - {"period_number"}
                  && s.periodNumber == (if "period_number" in d.value then Some(PeriodItem(d.value["period_number"])) else None))
  {
    var fp := PeriodNodes(root, period, endDate);
    MapResultAt(fp, MetaReader(period), k);
    var metas := MapResult(fp, MetaReader(period)).value;
    assert MetaOf(period, fp[k]) == Ok(metas[k]);
    MapResultAt(metas, ItemsReader(conv, root, code, period, endDate), k);
    var fs := MapResult(metas, ItemsReader(conv, root, code, period, endDate)).value;
    assert ItemsOf(conv, root, code, period, endDate, metas[k]) == Ok(fs[k]);
    assert metas[k].endDate == fp[k].attrib["EndDate"];
    assert metas[k].QuarterMeta? <==> period == quarter;
    BuildAllAt(StatementClassOf(code), metas, fs, k);
    var s := FinStatement(conv, root, code, period, endDate).value[k];
    assert BuildStatement(StatementClassOf(code), metas[k], fs[k]) == Ok(s);
    BuildStatementSpec(StatementClassOf(code), metas[k], fs[k]);
  }

  /** A requested end date keeps only the periods with that date, and every record carries it. */
  lemma FinStatementEndDate(conv: Conv, root: Node, code: StatementCode, period: PeriodType, d: string, k: nat)
    requires FinStatement(conv, root, code, period, Some(d)).Ok?
    requires k < |FinStatement(conv, root, code, period, Some(d)).value|
    ensures FinStatement(conv, root, code, period, Some(d)).value[k].endDate == Some(d)
    ensures Subsequence(PeriodNodes(root, period, Some(d)), PeriodNodes(root, period, None))
  {
    var fp := PeriodNodes(root, period, Some(d));
    FinStatementLength(conv, root, code, period, Some(d));
    FinStatementRecord(conv, root, code, period, Some(d), k);
    FilterKept(AllPeriods(root, period), HasAttr("EndDate", d), k);
    FilterIsSubsequence(AllPeriods(root, period), HasAttr("EndDate", d));
  }

  /**
   * A period without matching line items gives a record with metadata only,
   * not an error; an annual one then has no period number either.
   */
  lemma FinStatementNoLineItems(conv: Conv, root: Node, code: StatementCode, period: PeriodType, endDate: Option<string>, k: nat)
    requires FinStatement(conv, root, code, period, endDate).Ok?
    requires k < |PeriodNodes(root, period, endDate)|
    requires var fp := PeriodNodes(root, period, endDate)[k];
             "EndDate" in fp.attrib && LineItemNodes(root, period, PeriodDate(endDate, fp.attrib["EndDate"]), code) == []
    ensures |FinStatement(conv, root, code, period, endDate).value| == |PeriodNodes(root, period, endDate)|
    ensures FinStatement(conv, root, code, period, endDate).value[k].items == map[]
    ensures period == annual ==> FinStatement(conv, root, code, period, endDate).value[k].periodNumber == None
  {
    FinStatementItems(conv, root, code, period, endDate, k);
  }

  /** Every line-item key of a record is a line-item field of the statement's class. */
  lemma FinStatementDeclares(conv: Conv, root: Node, code: StatementCode, period: PeriodType, endDate: Option<string>, k: nat)
    requires FinStatement(conv, root, code, period, endDate).Ok?
    requires k < |PeriodNodes(root, period, endDate)|
    ensures |FinStatement(conv, root, code, period, endDate).value| == |PeriodNodes(root, period, endDate)|
    ensures Declares(StatementClassOf(code), FinStatement(conv, root, code, period, endDate).value[k].items.Keys)
  {
    var fp := PeriodNodes(root, period, endDate);
    MapResultAt(fp, MetaReader(period), k);
    var metas := MapResult(fp, MetaReader(period)).value;
    MapResultAt(metas, ItemsReader(conv, root, code, period, endDate), k);
    var fs := MapResult(metas, ItemsReader(conv, root, code, period, endDate)).value;
    BuildAllAt(StatementClassOf(code), metas, fs, k);
    BuildStatementSpec(StatementClassOf(code), metas[k], fs[k]);
  }

  /**
   * Every line-item key of a record is the lower-cased `coaCode` of one of
   * its period's lineItem elements, and each such element gives a key,
   * except on an annual record the one that lowers to `period_number`.
   */
  lemma FinStatementKeys(conv: Conv, root: Node, code: StatementCode, period: PeriodType, endDate: Option<string>, k: nat, key: string)
    requires FinStatement(conv, root, code, period, endDate).Ok?
    requires k < |PeriodNodes(root, period, endDate)|
    ensures |FinStatement(conv, root, code, period, endDate).value| == |PeriodNodes(root, period, endDate)|
    ensures "EndDate" in PeriodNodes(root, period, endDate)[k].attrib
    ensures var s := FinStatement(conv, root, code, period, endDate).value[k];
            var xs := LineItemNodes(root, period, PeriodDate(endDate, PeriodNodes(root, period, endDate)[k].attrib["EndDate"]), code);
            && (key in s.items <==> (period == quarter || key != "period_number")
                                    && exists j :: 0 <= j < |xs| && "coaCode" in xs[j].attrib && Lower(xs[j].attrib["coaCode"]) == key)
            && (key in s.items ==> NoUpper(key))
  {
    FinStatementItems(conv, root, code, period, endDate, k);
    var fp := PeriodNodes(root, period, endDate);
    var s := FinStatement(conv, root, code, period, endDate).value[k];
    var xs := LineItemNodes(root, period, PeriodDate(endDate, fp[k].attrib["EndDate"]), code);
    DictKeys(xs, CoaKey, LineValue(conv), key);
    CoaKeyFound(xs, key);
    if key in s.items {
      var j :| 0 <= j < |xs| && CoaKey(xs[j]) == Ok(key);
      assert NoUpper(Lower(xs[j].attrib["coaCode"]));
    }
  }

  /** Some line item's key is `key` exactly when some line item has a `coaCode` that lowers to it. */
  lemma CoaKeyFound(xs: seq<Node>, key: string)
    ensures (exists j :: 0 <= j < |xs| && CoaKey(xs[j]) == Ok(key))
        <==> (exists j :: 0 <= j < |xs| && "coaCode" in xs[j].attrib && Lower(xs[j].attrib["coaCode"]) == key)
  {
    if exists j :: 0 <= j < |xs| && CoaKey(xs[j]) == Ok(key) {
      var j :| 0 <= j < |xs| && CoaKey(xs[j]) == Ok(key);
      assert "coaCode" in xs[j].attrib && Lower(xs[j].attrib["coaCode"]) == key;
    }
    if exists j :: 0 <= j < |xs| && "coaCode" in xs[j].attrib && Lower(xs[j].attrib["coaCode"]) == key {
      var j :| 0 <= j < |xs| && "coaCode" in xs[j].attrib && Lower(xs[j].attrib["coaCode"]) == key;
      assert CoaKey(xs[j]) == Ok(key);
    }
  }

  /**
   * Line items are looked up by date, not by period element: without a
   * requested date, two periods of the section with the same `EndDate` get
   * the same line items.
   */
  lemma FinStatementSameDate(conv: Conv, root: Node, code: StatementCode, period: PeriodType, j: nat, k: nat)
    requires FinStatement(conv, root, code, period, None).Ok?
    requires j < |FinStatement(conv, root, code, period, None).value| && k < |FinStatement(conv, root, code, period, None).value|
    requires FinStatement(conv, root, code, period, None).value[j].endDate == FinStatement(conv, root, code, period, None).value[k].endDate
    ensures FinStatement(conv, root, code, period, None).value[j].items == FinStatement(conv, root, code, period, None).value[k].items
  {
    FinStatementLength(conv, root, code, period, None);
    FinStatementRecord(conv, root, code, period, None, j);
    FinStatementRecord(conv, root, code, period, None, k);
    FinStatementItems(conv, root, code, period, None, j);
    FinStatementItems(conv, root, code, period, None, k);
  }

  // ---------------------------------------------------------------- get_map_items

  /** `findall(".//COAMap/")`: every child of every COAMap element. */
  function MapItemNodes(root: Node): seq<Node> {
    AllChildren(DescendantStep([root], "COAMap"))
  }

  /** The comprehension's condition; `statementType` is read only when a statement is asked for. */
  function KeepTypeOf(statement: Option<StatementCode>, mi: Node): Result<bool> {
    if statement.None? then Ok(true)
    else
      var t :- Attr(mi, "statementType");
      Ok(t == CodeName(statement.value))
  }

  function KeepType(statement: Option<StatementCode>): Node -> Result<bool> {
    (mi: Node) => KeepTypeOf(statement, mi)
  }

  /** One `StatementMap(...)`, keywords evaluated in order. */
  function MapRowOf(conv: Conv, mi: Node): Result<StatementMap> {
    var coa :- Attr(mi, "coaItem");
    var st :- Attr(mi, "statementType");
    var lid :- Attr(mi, "lineID");
    var n :- ToInt(conv, Some(lid));
    Ok(StatementMap(coa, mi.text, st, n))
  }

  function MapRow(conv: Conv): Node -> Result<StatementMap> {
    (mi: Node) => MapRowOf(conv, mi)
  }

  function MapItems(conv: Conv, root: Node, statement: Option<StatementCode>): Result<seq<StatementMap>> {
    Comprehension(MapItemNodes(root), KeepType(statement), MapRow(conv))
  }

  function TypeIs(t: string): StatementMap -> bool {
    (m: StatementMap) => m.statementType == t
  }

  /** Without a statement code every mapping element becomes a row, in document order. */
  lemma MapItemsAll(conv: Conv, root: Node)
    ensures MapItems(conv, root, None) == MapResult(MapItemNodes(root), MapRow(conv))
  {
    ComprehensionAll(MapItemNodes(root), KeepType(None), MapRow(conv));
  }

  /** A row that was built was read with its `statementType`, which the condition compares. */
  lemma RowKept(conv: Conv, mi: Node, c: StatementCode)
    requires MapRowOf(conv, mi).Ok?
    ensures KeepTypeOf(Some(c), mi) == Ok(MapRowOf(conv, mi).value.statementType == CodeName(c))
  {
  }

  lemma MapFilterOn(conv: Conv, xs: seq<Node>, c: StatementCode)
    requires MapResult(xs, MapRow(conv)).Ok?
    ensures Comprehension(xs, KeepType(Some(c)), MapRow(conv)) == Ok(Filter(MapResult(xs, MapRow(conv)).value, TypeIs(CodeName(c))))
  {
    forall k | 0 <= k < |xs| && MapRow(conv)(xs[k]).Ok?
      ensures KeepType(Some(c))(xs[k]) == Ok(TypeIs(CodeName(c))(MapRow(conv)(xs[k]).value))
    {
      RowKept(conv, xs[k], c);
    }
    ComprehensionFilter(xs, KeepType(Some(c)), MapRow(conv), TypeIs(CodeName(c)));
  }

  /**
   * With a statement code the rows are exactly the unfiltered rows of that
   * statement type, in the same order: a subsequence of the unfiltered list.
   */
  lemma MapItemsFiltered(conv: Conv, root: Node, c: StatementCode)
    requires MapItems(conv, root, None).Ok?
    ensures MapItems(conv, root, Some(c)) == Ok(Filter(MapItems(conv, root, None).value, TypeIs(CodeName(c))))
    ensures Subsequence(MapItems(conv, root, Some(c)).value, MapItems(conv, root, None).value)
  {
    MapItemsAll(conv, root);
    MapFilterOn(conv, MapItemNodes(root), c);
    FilterIsSubsequence(MapItems(conv, root, None).value, TypeIs(CodeName(c)));
  }

  lemma {:induction false} TypePartition(rows: seq<StatementMap>)
    requires forall k :: 0 <= k < |rows| ==> rows[k].statementType in {"INC", "BAL", "CAS"}
    ensures |Filter(rows, TypeIs("INC"))| + |Filter(rows, TypeIs("BAL"))| + |Filter(rows, TypeIs("CAS"))| == |rows|
  {
    if rows != [] {
      assert forall k :: 0 <= k < |rows[1..]| ==> rows[1..][k] == rows[k + 1];
      TypePartition(rows[1..]);
    }
  }

  /** When every mapping row is of type INC, BAL or CAS, the three filtered lists together are as long as the unfiltered one. */
  lemma MapItemsPartition(conv: Conv, root: Node)
    requires MapItems(conv, root, None).Ok?
    requires forall k :: 0 <= k < |MapItems(conv, root, None).value| ==> MapItems(conv, root, None).value[k].statementType in {"INC", "BAL", "CAS"}
    ensures MapItems(conv, root, Some(INC)).Ok? && MapItems(conv, root, Some(BAL)).Ok? && MapItems(conv, root, Some(CAS)).Ok?
    ensures |MapItems(conv, root, Some(INC)).value| + |MapItems(conv, root, Some(BAL)).value|
            + |MapItems(conv, root, Some(CAS)).value| == |MapItems(conv, root, None).value|
  {
    MapItemsFiltered(conv, root, INC);
    MapItemsFiltered(conv, root, BAL);
    MapItemsFiltered(conv, root, CAS);
    TypePartition(MapItems(conv, root, None).value);
  }
}
