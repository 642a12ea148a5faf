/**
 * The series of a ReportsFinSummary tree: `get_dividend`, `get_div_per_share`,
 * `get_revenue` and `get_eps`. Each reads one section directly under the root,
 * takes its `currency` attribute, and builds one record per child element,
 * optionally filtered on the child's `reportType` and `period` attributes.
 */
module FinSummary {
  import opened Wrappers
  import opened Seqs
  import opened XmlTree
  import opened Conversions
  import opened Objects

  // ---------------------------------------------------------------- dividends

  /** The `Dividend(...)` call of `get_dividend` for one child, keywords in source order. */
  function DividendOf(conv: Conv, curr: string, n: Node): Result<Dividend> {
    var kind :- Attr(n, "type");
    var exDate :- IsoAttr(conv, n, "exDate");
    var recordDate :- IsoAttr(conv, n, "recordDate");
    var payDate :- IsoAttr(conv, n, "payDate");
    var declarationDate :- IsoAttr(conv, n, "declarationDate");
    var value :- ToFloat(conv, n.text);
    Ok(Dividend(kind, exDate, recordDate, payDate, declarationDate, curr, value))
  }

  function DividendReader(conv: Conv, curr: string): Node -> Result<Dividend> {
    (n: Node) => DividendOf(conv, curr, n)
  }

  /** `get_dividend`: `None` without a Dividends section, otherwise one record per child. */
  function Dividends(conv: Conv, root: Node): Result<Option<seq<Dividend>>> {
    match FindChild(root, "Dividends")
    case None => Ok(None)
    case Some(fs) =>
      var curr :- Attr(fs, "currency");
      var ds :- MapResult(fs.children, DividendReader(conv, curr));
      Ok(Some(ds))
  }

  /** Without a Dividends section the call returns `None`, and only then. */
  lemma DividendsMissing(conv: Conv, root: Node)
    ensures Dividends(conv, root) == Ok(None) <==> FindChild(root, "Dividends").None?
  {
  }

  /** A section without a `currency` attribute raises KeyError, even when it has no children. */
  lemma DividendsNoCurrency(conv: Conv, root: Node)
    requires FindChild(root, "Dividends").Some? && "currency" !in FindChild(root, "Dividends").value.attrib
    ensures Dividends(conv, root) == Err(KeyError("currency"))
  {
  }

  /**
   * A returned list has one record per child of the section, in order: each
   * carries the section's currency, the child's `type` attribute, its four
   * parsed dates and its parsed text.
   */
  lemma DividendsRecords(conv: Conv, root: Node, k: nat)
    requires Dividends(conv, root).Ok? && Dividends(conv, root).value.Some?
    requires k < |FindChild(root, "Dividends").value.children|
    ensures var fs := FindChild(root, "Dividends").value;
            var d := Dividends(conv, root).value.value;
            && |d| == |fs.children|
            && d[k].currency == fs.attrib["currency"]
            && Attr(fs.children[k], "type") == Ok(d[k].kind)
            && IsoAttr(conv, fs.children[k], "exDate") == Ok(d[k].exDate)
            && IsoAttr(conv, fs.children[k], "recordDate") == Ok(d[k].recordDate)
            && IsoAttr(conv, fs.children[k], "payDate") == Ok(d[k].payDate)
            && IsoAttr(conv, fs.children[k], "declarationDate") == Ok(d[k].declarationDate)
            && ToFloat(conv, fs.children[k].text) == Ok(d[k].value)
  {
    var fs := FindChild(root, "Dividends").value;
    MapResultAt(fs.children, DividendReader(conv, fs.attrib["currency"]), k);
    DividendOfRow(conv, fs.attrib["currency"], fs.children[k]);
  }

  /** The fields of one parsed dividend, each traced to the attribute or text it came from. */
  lemma DividendOfRow(conv: Conv, curr: string, n: Node)
    requires DividendOf(conv, curr, n).Ok?
    ensures var d := DividendOf(conv, curr, n).value;
            && d.currency == curr
            && Attr(n, "type") == Ok(d.kind)
            && IsoAttr(conv, n, "exDate") == Ok(d.exDate)
            && IsoAttr(conv, n, "recordDate") == Ok(d.recordDate)
            && IsoAttr(conv, n, "payDate") == Ok(d.payDate)
            && IsoAttr(conv, n, "declarationDate") == Ok(d.declarationDate)
            && ToFloat(conv, n.text) == Ok(d.value)
  {
  }

  // ---------------------------------------------------------------- filtered series

  /** The keywords one child of a filtered series evaluates to. */
  datatype Point = Point(asOfDate: Date, reportType: string, period: string, currency: string, value: Float)

  /** The evaluated keywords `as_of_date`, `report_type`, `period`, `currency` and the value, in source order. */
  function PointOf(conv: Conv, curr: string, n: Node): (r: Result<Point>)
    ensures r.Ok? ==> r.value.currency == curr
  {
    var asOfDate :- IsoAttr(conv, n, "asofDate");
    var reportType :- Attr(n, "reportType");
    var period :- Attr(n, "period");
    var value :- ToFloat(conv, n.text);
    Ok(Point(asOfDate, reportType, period, curr, value))
  }

  function PointReader(conv: Conv, curr: string): Node -> Result<Point> {
    (n: Node) => PointOf(conv, curr, n)
  }

  /** `want is None or n.attrib[key] == want`: the attribute is read only when a value is asked for. */
  function AttrIs(n: Node, key: string, want: Option<string>): Result<bool> {
    if want.None? then Ok(true)
    else
      var v :- Attr(n, key);
      Ok(v == want.value)
  }

  /** The comprehension's condition: the report type test, then (only when it holds) the period test. */
  function Keep(rt: Option<string>, p: Option<string>): Node -> Result<bool> {
    (n: Node) =>
      var first :- AttrIs(n, "reportType", rt);
      if first then AttrIs(n, "period", p) else Ok(false)
  }

  /** A point matches the requested report type and period; `None` asks for any. */
  function Matches(rt: Option<string>, p: Option<string>): Point -> bool {
    (pt: Point) => (rt.None? || pt.reportType == rt.value) && (p.None? || pt.period == p.value)
  }

  /** The comprehension shared by the three filtered series, on the section `fs`. */
  function Points(conv: Conv, fs: Node, rt: Option<string>, p: Option<string>): Result<seq<Point>> {
    var curr :- Attr(fs, "currency");
    Comprehension(fs.children, Keep(rt, p), PointReader(conv, curr))
  }

  /** The condition on a child that parses agrees with `Matches` on its point. */
  lemma KeepMatches(conv: Conv, curr: string, rt: Option<string>, p: Option<string>, n: Node)
    requires PointOf(conv, curr, n).Ok?
    ensures Keep(rt, p)(n) == Ok(Matches(rt, p)(PointOf(conv, curr, n).value))
  {
  }

  /**
   * Every point returned carries the section's currency, matches the
   * requested report type and period, and is the parse of a child whose
   * condition held.
   */
  lemma PointsFrom(conv: Conv, fs: Node, rt: Option<string>, p: Option<string>, k: nat)
    requires Points(conv, fs, rt, p).Ok? && k < |Points(conv, fs, rt, p).value|
    ensures var pt := Points(conv, fs, rt, p).value[k];
            && pt.currency == fs.attrib["currency"]
            && Matches(rt, p)(pt)
            && exists j :: 0 <= j < |fs.children| && PointOf(conv, fs.attrib["currency"], fs.children[j]) == Ok(pt)
  {
    var curr := fs.attrib["currency"];
    var pt := Points(conv, fs, rt, p).value[k];
    ComprehensionFrom(fs.children, Keep(rt, p), PointReader(conv, curr), k);
    var j :| 0 <= j < |fs.children| && Keep(rt, p)(fs.children[j]) == Ok(true)
             && PointReader(conv, curr)(fs.children[j]) == Ok(pt);
    KeepMatches(conv, curr, rt, p, fs.children[j]);
  }

  /**
   * When every child parses, the series is the list of all points filtered by
   * `Matches`: a subsequence of the children's points that keeps exactly the
   * matching ones, in document order.
   */
  lemma PointsFiltered(conv: Conv, fs: Node, rt: Option<string>, p: Option<string>)
    requires "currency" in fs.attrib
    requires MapResult(fs.children, PointReader(conv, fs.attrib["currency"])).Ok?
    ensures var all := MapResult(fs.children, PointReader(conv, fs.attrib["currency"])).value;
            Points(conv, fs, rt, p) == Ok(Filter(all, Matches(rt, p)))
  {
    var curr := fs.attrib["currency"];
    forall k | 0 <= k < |fs.children| && PointReader(conv, curr)(fs.children[k]).Ok?
      ensures Keep(rt, p)(fs.children[k]) == Ok(Matches(rt, p)(PointReader(conv, curr)(fs.children[k]).value))
    {
      KeepMatches(conv, curr, rt, p, fs.children[k]);
    }
    ComprehensionFilter(fs.children, Keep(rt, p), PointReader(conv, curr), Matches(rt, p));
  }

  /**
   * When the condition raises on no child, the series is the plain list
   * comprehension over the children it keeps, in document order: it raises
   * the first error of a kept child that does not parse, and never reads a
   * child it drops.
   */
  lemma PointsKept(conv: Conv, fs: Node, rt: Option<string>, p: Option<string>)
    requires "currency" in fs.attrib
    requires forall k :: 0 <= k < |fs.children| ==> Keep(rt, p)(fs.children[k]).Ok?
    ensures Points(conv, fs, rt, p)
            == MapResult(Filter(fs.children, Holds(Keep(rt, p))), PointReader(conv, fs.attrib["currency"]))
  {
    ComprehensionKept(fs.children, Keep(rt, p), PointReader(conv, fs.attrib["currency"]));
  }

  /** With neither filter, no child is dropped: the series is the plain list comprehension. */
  lemma PointsUnfiltered(conv: Conv, fs: Node)
    requires "currency" in fs.attrib
    ensures Points(conv, fs, None, None) == MapResult(fs.children, PointReader(conv, fs.attrib["currency"]))
  {
    ComprehensionAll(fs.children, Keep(None, None), PointReader(conv, fs.attrib["currency"]));
  }

  /** A child that does not match the report type asked for is dropped without its other attributes being read. */
  lemma PointsSkipUnread(rt: string, p: Option<string>, n: Node)
    requires "reportType" in n.attrib && n.attrib["reportType"] != rt
    ensures Keep(Some(rt), p)(n) == Ok(false)
  {
  }

  function AsDividendPerShare(pt: Point): DividendPerShare {
    DividendPerShare(pt.asOfDate, pt.reportType, pt.period, pt.currency, pt.value)
  }

  function AsRevenue(pt: Point): Revenue {
    Revenue(pt.asOfDate, pt.reportType, pt.period, pt.currency, pt.value)
  }

  function AsEps(pt: Point): EarningsPerShare {
    EarningsPerShare(pt.asOfDate, pt.reportType, pt.period, pt.currency, pt.value)
  }

  /** `get_div_per_share(report_type, period)`: `None` without a DividendPerShares section. */
  function DivPerShare(conv: Conv, root: Node, rt: Option<string>, p: Option<string>): Result<Option<seq<DividendPerShare>>> {
    match FindChild(root, "DividendPerShares")
    case None => Ok(None)
    case Some(fs) =>
      var pts :- Points(conv, fs, rt, p);
      Ok(Some(MapSeq(pts, AsDividendPerShare)))
  }

  /** `fs.attrib` on the `None` that `find` returns for a missing section. */
  const NoSection := AttributeError("'NoneType' object has no attribute 'attrib'")

  /** `get_revenue(report_type, period)`, with the record class taking the five keywords the parser passes. */
  function Revenues(conv: Conv, root: Node, rt: Option<string>, p: Option<string>): Result<seq<Revenue>> {
    match FindChild(root, "TotalRevenues")
    case None => Err(NoSection)
    case Some(fs) =>
      var pts :- Points(conv, fs, rt, p);
      Ok(MapSeq(pts, AsRevenue))
  }

  /** `get_eps(report_type, period)`, with the record class taking the five keywords the parser passes. */
  function Eps(conv: Conv, root: Node, rt: Option<string>, p: Option<string>): Result<seq<EarningsPerShare>> {
    match FindChild(root, "EPSs")
    case None => Err(NoSection)
    case Some(fs) =>
      var pts :- Points(conv, fs, rt, p);
      Ok(MapSeq(pts, AsEps))
  }

  /**
   * A missing section: the dividend-per-share series returns `None`, while
   * the revenue and EPS series, which do not test for it, raise AttributeError.
   */
  lemma SeriesMissingSection(conv: Conv, root: Node, rt: Option<string>, p: Option<string>)
    ensures FindChild(root, "DividendPerShares").None? <==> DivPerShare(conv, root, rt, p) == Ok(None)
    ensures FindChild(root, "TotalRevenues").None? ==> Revenues(conv, root, rt, p) == Err(NoSection)
    ensures FindChild(root, "EPSs").None? ==> Eps(conv, root, rt, p) == Err(NoSection)
  {
  }

  /** Every revenue returned matches the filter and carries the section's currency. */
  lemma RevenuesMatch(conv: Conv, root: Node, rt: Option<string>, p: Option<string>, k: nat)
    requires Revenues(conv, root, rt, p).Ok? && k < |Revenues(conv, root, rt, p).value|
    ensures var r := Revenues(conv, root, rt, p).value[k];
            && r.currency == FindChild(root, "TotalRevenues").value.attrib["currency"]
            && (rt.Some? ==> r.reportType == rt.value)
            && (p.Some? ==> r.period == p.value)
  {
    var fs := FindChild(root, "TotalRevenues").value;
    var pts := Points(conv, fs, rt, p).value;
    assert Revenues(conv, root, rt, p).value == MapSeq(pts, AsRevenue);
    assert Revenues(conv, root, rt, p).value[k] == AsRevenue(pts[k]);
    PointsFrom(conv, fs, rt, p, k);
  }

  /** Every EPS point returned matches the filter and carries the section's currency. */
  lemma EpsMatch(conv: Conv, root: Node, rt: Option<string>, p: Option<string>, k: nat)
    requires Eps(conv, root, rt, p).Ok? && k < |Eps(conv, root, rt, p).value|
    ensures var e := Eps(conv, root, rt, p).value[k];
            && e.currency == FindChild(root, "EPSs").value.attrib["currency"]
            && (rt.Some? ==> e.reportType == rt.value)
            && (p.Some? ==> e.period == p.value)
  {
    var fs := FindChild(root, "EPSs").value;
    var pts := Points(conv, fs, rt, p).value;
    assert Eps(conv, root, rt, p).value == MapSeq(pts, AsEps);
    assert Eps(conv, root, rt, p).value[k] == AsEps(pts[k]);
    PointsFrom(conv, fs, rt, p, k);
  }

  /** Every dividend per share returned matches the filter and carries the section's currency. */
  lemma DivPerShareMatch(conv: Conv, root: Node, rt: Option<string>, p: Option<string>, k: nat)
    requires DivPerShare(conv, root, rt, p).Ok? && DivPerShare(conv, root, rt, p).value.Some?
    requires k < |DivPerShare(conv, root, rt, p).value.value|
    ensures var d := DivPerShare(conv, root, rt, p).value.value[k];
            && d.currency == FindChild(root, "DividendPerShares").value.attrib["currency"]
            && (rt.Some? ==> d.reportType == rt.value)
            && (p.Some? ==> d.period == p.value)
  {
    var fs := FindChild(root, "DividendPerShares").value;
    var pts := Points(conv, fs, rt, p).value;
    assert DivPerShare(conv, root, rt, p).value.value == MapSeq(pts, AsDividendPerShare);
    assert DivPerShare(conv, root, rt, p).value.value[k] == AsDividendPerShare(pts[k]);
    PointsFrom(conv, fs, rt, p, k);
  }

  // ---------------------------------------------------------------- revenue and EPS as written

  /** `Revenue(...)` with the five keywords, against the three-field class: keywords first, then TypeError. */
  function RevenueAsWrittenOf(conv: Conv, curr: string, n: Node): Result<RevenueAsDeclared> {
    var pt :- PointOf(conv, curr, n);
    BuildRevenueAsDeclared(pt.asOfDate, pt.reportType, pt.value)
  }

  /** `EarningsPerShare(...)` with the five keywords, against the three-field class. */
  function EpsAsWrittenOf(conv: Conv, curr: string, n: Node): Result<EarningsPerShareAsDeclared> {
    var pt :- PointOf(conv, curr, n);
    BuildEpsAsDeclared(pt.asOfDate, pt.reportType, pt.value)
  }

  /** `get_revenue` as written, building the declared `Revenue` class. */
  function RevenuesAsWritten(conv: Conv, root: Node, rt: Option<string>, p: Option<string>): Result<seq<RevenueAsDeclared>> {
    match FindChild(root, "TotalRevenues")
    case None => Err(NoSection)
    case Some(fs) =>
      var curr :- Attr(fs, "currency");
      Comprehension(fs.children, Keep(rt, p), (n: Node) => RevenueAsWrittenOf(conv, curr, n))
  }

  /** `get_eps` as written, building the declared `EarningsPerShare` class. */
  function EpsAsWritten(conv: Conv, root: Node, rt: Option<string>, p: Option<string>): Result<seq<EarningsPerShareAsDeclared>> {
    match FindChild(root, "EPSs")
    case None => Err(NoSection)
    case Some(fs) =>
      var curr :- Attr(fs, "currency");
      Comprehension(fs.children, Keep(rt, p), (n: Node) => EpsAsWrittenOf(conv, curr, n))
  }

  const UnexpectedPeriod := TypeError("__init__() got an unexpected keyword argument 'period'")

  /** As written, `get_revenue` can only return an empty list: no record is ever built. */
  lemma RevenuesAsWrittenEmpty(conv: Conv, root: Node, rt: Option<string>, p: Option<string>)
    requires RevenuesAsWritten(conv, root, rt, p).Ok?
    ensures RevenuesAsWritten(conv, root, rt, p).value == []
  {
    var fs := FindChild(root, "TotalRevenues").value;
    var curr := fs.attrib["currency"];
    var f := (n: Node) => RevenueAsWrittenOf(conv, curr, n);
    if RevenuesAsWritten(conv, root, rt, p).value != [] {
      ComprehensionFrom(fs.children, Keep(rt, p), f, 0);
      var j :| 0 <= j < |fs.children| && Keep(rt, p)(fs.children[j]) == Ok(true)
               && f(fs.children[j]) == Ok(RevenuesAsWritten(conv, root, rt, p).value[0]);
      var pt := PointOf(conv, curr, fs.children[j]).value;
      BuildRevenueAsDeclaredFails(pt.asOfDate, pt.reportType, pt.value);
      assert false;
    }
  }

  /** As written, `get_eps` can only return an empty list. */
  lemma EpsAsWrittenEmpty(conv: Conv, root: Node, rt: Option<string>, p: Option<string>)
    requires EpsAsWritten(conv, root, rt, p).Ok?
    ensures EpsAsWritten(conv, root, rt, p).value == []
  {
    var fs := FindChild(root, "EPSs").value;
    var curr := fs.attrib["currency"];
    var f := (n: Node) => EpsAsWrittenOf(conv, curr, n);
    if EpsAsWritten(conv, root, rt, p).value != [] {
      ComprehensionFrom(fs.children, Keep(rt, p), f, 0);
      var j :| 0 <= j < |fs.children| && Keep(rt, p)(fs.children[j]) == Ok(true)
               && f(fs.children[j]) == Ok(EpsAsWritten(conv, root, rt, p).value[0]);
      var pt := PointOf(conv, curr, fs.children[j]).value;
      BuildEpsAsDeclaredFails(pt.asOfDate, pt.reportType, pt.value);
      assert false;
    }
  }

  /**
   * Wherever the five-field revenue series has a point, the code as written
   * raises TypeError for the `period` keyword instead.
   */
  lemma RevenuesAsWrittenFails(conv: Conv, root: Node, rt: Option<string>, p: Option<string>)
    requires Revenues(conv, root, rt, p).Ok? && Revenues(conv, root, rt, p).value != []
    ensures RevenuesAsWritten(conv, root, rt, p) == Err(UnexpectedPeriod)
  {
    var fs := FindChild(root, "TotalRevenues").value;
    var curr := fs.attrib["currency"];
    var g := (pt: Point) => BuildRevenueAsDeclared(pt.asOfDate, pt.reportType, pt.value);
    var pts := Points(conv, fs, rt, p).value;
    ComprehensionThen(fs.children, Keep(rt, p), PointReader(conv, curr), g,
                      (n: Node) => RevenueAsWrittenOf(conv, curr, n));
    BuildRevenueAsDeclaredFails(pts[0].asOfDate, pts[0].reportType, pts[0].value);
  }

  /** Wherever the five-field EPS series has a point, the code as written raises TypeError. */
  lemma EpsAsWrittenFails(conv: Conv, root: Node, rt: Option<string>, p: Option<string>)
    requires Eps(conv, root, rt, p).Ok? && Eps(conv, root, rt, p).value != []
    ensures EpsAsWritten(conv, root, rt, p) == Err(UnexpectedPeriod)
  {
    var fs := FindChild(root, "EPSs").value;
    var curr := fs.attrib["currency"];
    var g := (pt: Point) => BuildEpsAsDeclared(pt.asOfDate, pt.reportType, pt.value);
    var pts := Points(conv, fs, rt, p).value;
    ComprehensionThen(fs.children, Keep(rt, p), PointReader(conv, curr), g,
                      (n: Node) => EpsAsWrittenOf(conv, curr, n));
    BuildEpsAsDeclaredFails(pts[0].asOfDate, pts[0].reportType, pts[0].value);
  }
}
