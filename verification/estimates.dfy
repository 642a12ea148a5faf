/**
 * The RESC extractors: `get_fy_estimates` and `get_fy_actuals`. Both walk the
 * tree with `Element.iter` and build one `ForwardYear` row per innermost
 * element of a nested comprehension.
 */
module Estimates {
  import opened Wrappers
  import opened Seqs
  import opened XmlTree
  import opened Conversions
  import opened Objects

  /** The keywords read from the item element `a` and the period element `p`, in source order. */
  datatype Header = Header(item: string, unit: string, periodType: string, fyear: int, endMonth: int, endCalYear: int)

  /** `item=a.attrib["type"]`, `unit=a.attrib["unit"]`, then the period type and the three integers of `p`. */
  function HeaderOf(conv: Conv, a: Node, p: Node): Result<Header> {
    var item :- Attr(a, "type");
    var unit :- Attr(a, "unit");
    var periodType :- Attr(p, "periodType");
    var fyear :- IntAttr(conv, p, "fYear");
    var endMonth :- IntAttr(conv, p, "endMonth");
    var endCalYear :- IntAttr(conv, p, "endCalYear");
    Ok(Header(item, unit, periodType, fyear, endMonth, endCalYear))
  }

  function Row(kind: ForwardKind, h: Header, value: Float, estType: string, updated: Option<Date>): ForwardYear {
    ForwardYear(kind, h.item, h.unit, h.periodType, h.fyear, h.endMonth, h.endCalYear, value, estType, updated)
  }

  // ---------------------------------------------------------------- estimates

  /** One estimate row: `value=float(e[0].text)`, `est_type=e.attrib["type"]`, `updated` left at `None`. */
  function EstimateOf(conv: Conv, a: Node, p: Node, e: Node): Result<ForwardYear> {
    var h :- HeaderOf(conv, a, p);
    var first :- Child0(e);
    var value :- ToFloat(conv, first.text);
    var estType :- Attr(e, "type");
    Ok(Row(Estimate, h, value, estType, None))
  }

  /** The rows of one FYPeriod: one per ConsEstimate at or below it. */
  function PeriodEstimates(conv: Conv, a: Node, p: Node): Result<seq<ForwardYear>> {
    MapResult(Iter(p, "ConsEstimate"), (e: Node) => EstimateOf(conv, a, p, e))
  }

  /** The rows of one FYEstimate. */
  function ItemEstimates(conv: Conv, a: Node): Result<seq<ForwardYear>> {
    FlatMapResult(Iter(a, "FYPeriod"), (p: Node) => PeriodEstimates(conv, a, p))
  }

  /** `get_fy_estimates`: `for a in iter("FYEstimate") for p in a.iter("FYPeriod") for e in p.iter("ConsEstimate")`. */
  function EstimatesOf(conv: Conv, root: Node): Result<seq<ForwardYear>> {
    FlatMapResult(Iter(root, "FYEstimate"), (a: Node) => ItemEstimates(conv, a))
  }

  lemma PeriodEstimatesIn(conv: Conv, a: Node, p: Node, r: ForwardYear)
    requires PeriodEstimates(conv, a, p).Ok?
    ensures r in PeriodEstimates(conv, a, p).value <==>
              exists e :: e in Iter(p, "ConsEstimate") && EstimateOf(conv, a, p, e) == Ok(r)
  {
    MapResultIn(Iter(p, "ConsEstimate"), (e: Node) => EstimateOf(conv, a, p, e), r);
  }

  lemma ItemEstimatesIn(conv: Conv, a: Node, r: ForwardYear)
    requires ItemEstimates(conv, a).Ok?
    ensures r in ItemEstimates(conv, a).value <==>
              exists p, e :: p in Iter(a, "FYPeriod") && e in Iter(p, "ConsEstimate") && EstimateOf(conv, a, p, e) == Ok(r)
  {
    var f := (p: Node) => PeriodEstimates(conv, a, p);
    FlatMapOk(Iter(a, "FYPeriod"), f);
    FlatMapIn(Iter(a, "FYPeriod"), f, r);
    forall p | p in Iter(a, "FYPeriod")
      ensures r in PeriodEstimates(conv, a, p).value <==>
                exists e :: e in Iter(p, "ConsEstimate") && EstimateOf(conv, a, p, e) == Ok(r)
    {
      PeriodEstimatesIn(conv, a, p, r);
    }
  }

  /**
   * A row is among the estimates exactly when some ConsEstimate `e` below some
   * FYPeriod `p` below some FYEstimate `a` yields it: the rows are the
   * ConsEstimate elements of the tree, each read with its period and item.
   */
  lemma EstimatesIn(conv: Conv, root: Node, r: ForwardYear)
    requires EstimatesOf(conv, root).Ok?
    ensures r in EstimatesOf(conv, root).value <==>
              exists a, p, e :: a in Iter(root, "FYEstimate") && p in Iter(a, "FYPeriod") && e in Iter(p, "ConsEstimate")
                                && EstimateOf(conv, a, p, e) == Ok(r)
  {
    var f := (a: Node) => ItemEstimates(conv, a);
    FlatMapOk(Iter(root, "FYEstimate"), f);
    FlatMapIn(Iter(root, "FYEstimate"), f, r);
    forall a | a in Iter(root, "FYEstimate")
      ensures r in ItemEstimates(conv, a).value <==>
                exists p, e :: p in Iter(a, "FYPeriod") && e in Iter(p, "ConsEstimate") && EstimateOf(conv, a, p, e) == Ok(r)
    {
      ItemEstimatesIn(conv, a, r);
    }
  }

  /**
   * Every estimate row is of kind Estimate, has no `updated` timestamp, and
   * takes its estimate type from its ConsEstimate element and its value from
   * that element's first child.
   */
  lemma EstimateRows(conv: Conv, root: Node, r: ForwardYear)
    requires EstimatesOf(conv, root).Ok? && r in EstimatesOf(conv, root).value
    ensures r.kind == Estimate && r.updated == None
    ensures exists a, p, e :: a in Iter(root, "FYEstimate") && p in Iter(a, "FYPeriod") && e in Iter(p, "ConsEstimate")
                              && Attr(e, "type") == Ok(r.estType) && Attr(a, "type") == Ok(r.item)
                              && e.children != [] && ToFloat(conv, e.children[0].text) == Ok(r.value)
  {
    EstimatesIn(conv, root, r);
    var a, p, e :| a in Iter(root, "FYEstimate") && p in Iter(a, "FYPeriod") && e in Iter(p, "ConsEstimate")
                   && EstimateOf(conv, a, p, e) == Ok(r);
    EstimateOfRow(conv, a, p, e);
  }

  /** What one estimate row holds. */
  lemma EstimateOfRow(conv: Conv, a: Node, p: Node, e: Node)
    requires EstimateOf(conv, a, p, e).Ok?
    ensures var r := EstimateOf(conv, a, p, e).value;
            && r.kind == Estimate && r.updated == None
            && Attr(e, "type") == Ok(r.estType) && Attr(a, "type") == Ok(r.item)
            && e.children != [] && ToFloat(conv, e.children[0].text) == Ok(r.value)
  {
  }

  /** The number of ConsEstimate elements at or below an FYPeriod. */
  function EstimateCount(p: Node): nat {
    |Iter(p, "ConsEstimate")|
  }

  /** The number of (FYPeriod, ConsEstimate) pairs below an FYEstimate. */
  function PeriodEstimateCount(a: Node): nat {
    Count(Iter(a, "FYPeriod"), EstimateCount)
  }

  /** There is exactly one estimate row per (FYEstimate, FYPeriod, ConsEstimate) triple. */
  lemma EstimatesCount(conv: Conv, root: Node)
    requires EstimatesOf(conv, root).Ok?
    ensures |EstimatesOf(conv, root).value| == Count(Iter(root, "FYEstimate"), PeriodEstimateCount)
  {
    var f := (a: Node) => ItemEstimates(conv, a);
    forall a | a in Iter(root, "FYEstimate") && f(a).Ok?
      ensures |f(a).value| == PeriodEstimateCount(a)
    {
      var g := (p: Node) => PeriodEstimates(conv, a, p);
      forall p | p in Iter(a, "FYPeriod") && g(p).Ok?
        ensures |g(p).value| == EstimateCount(p)
      {
        MapResultOk(Iter(p, "ConsEstimate"), (e: Node) => EstimateOf(conv, a, p, e));
      }
      FlatMapCount(Iter(a, "FYPeriod"), g, EstimateCount);
    }
    FlatMapCount(Iter(root, "FYEstimate"), f, PeriodEstimateCount);
  }

  /** A ConsEstimate without children, under a period and item whose attributes parse, makes the call raise IndexError or earlier. */
  lemma EstimatesEmptyEstimate(conv: Conv, root: Node, a: Node, p: Node, e: Node)
    requires a in Iter(root, "FYEstimate") && p in Iter(a, "FYPeriod") && e in Iter(p, "ConsEstimate")
    requires e.children == []
    ensures EstimatesOf(conv, root).Err?
  {
    assert EstimateOf(conv, a, p, e).Err?;
    MapResultOk(Iter(p, "ConsEstimate"), (e: Node) => EstimateOf(conv, a, p, e));
    FlatMapOk(Iter(a, "FYPeriod"), (p: Node) => PeriodEstimates(conv, a, p));
    FlatMapOk(Iter(root, "FYEstimate"), (a: Node) => ItemEstimates(conv, a));
  }

  /** An FYPeriod with no ConsEstimate yields no row, and its attributes are never read. */
  lemma PeriodWithoutEstimates(conv: Conv, a: Node, p: Node)
    requires Iter(p, "ConsEstimate") == []
    ensures PeriodEstimates(conv, a, p) == Ok([])
  {
  }

  // ---------------------------------------------------------------- actuals

  /**
   * One actual row: `value=float(p[0].text)`, `updated=pd.to_datetime(p[0].attrib["updated"])`,
   * `est_type` left at "". The second `p[0]` finds the same child as the first.
   */
  function ActualOf(conv: Conv, a: Node, p: Node): Result<ForwardYear> {
    var h :- HeaderOf(conv, a, p);
    var first :- Child0(p);
    var value :- ToFloat(conv, first.text);
    var stamp :- Attr(first, "updated");
    var updated :- ToTimestamp(conv, stamp);
    Ok(Row(Actual, h, value, "", Some(updated)))
  }

  /** The rows of one FYActual: one per FYPeriod at or below it. */
  function ItemActuals(conv: Conv, a: Node): Result<seq<ForwardYear>> {
    MapResult(Iter(a, "FYPeriod"), (p: Node) => ActualOf(conv, a, p))
  }

  /** `get_fy_actuals`: `for a in iter("FYActual") for p in a.iter("FYPeriod")`. */
  function ActualsOf(conv: Conv, root: Node): Result<seq<ForwardYear>> {
    FlatMapResult(Iter(root, "FYActual"), (a: Node) => ItemActuals(conv, a))
  }

  /** A row is among the actuals exactly when some FYPeriod `p` below some FYActual `a` yields it. */
  lemma ActualsIn(conv: Conv, root: Node, r: ForwardYear)
    requires ActualsOf(conv, root).Ok?
    ensures r in ActualsOf(conv, root).value <==>
              exists a, p :: a in Iter(root, "FYActual") && p in Iter(a, "FYPeriod") && ActualOf(conv, a, p) == Ok(r)
  {
    var f := (a: Node) => ItemActuals(conv, a);
    FlatMapOk(Iter(root, "FYActual"), f);
    FlatMapIn(Iter(root, "FYActual"), f, r);
    forall a | a in Iter(root, "FYActual")
      ensures r in ItemActuals(conv, a).value <==>
                exists p :: p in Iter(a, "FYPeriod") && ActualOf(conv, a, p) == Ok(r)
    {
      MapResultIn(Iter(a, "FYPeriod"), (p: Node) => ActualOf(conv, a, p), r);
    }
  }

  /**
   * Every actual row is of kind Actual, keeps the default empty estimate
   * type, and takes its value and `updated` timestamp from the first child of
   * its FYPeriod, whatever that child's tag.
   */
  lemma ActualRows(conv: Conv, root: Node, r: ForwardYear)
    requires ActualsOf(conv, root).Ok? && r in ActualsOf(conv, root).value
    ensures r.kind == Actual && r.estType == "" && r.updated.Some?
    ensures exists a, p :: a in Iter(root, "FYActual") && p in Iter(a, "FYPeriod") && p.children != []
                           && ToFloat(conv, p.children[0].text) == Ok(r.value)
                           && "updated" in p.children[0].attrib
                           && ToTimestamp(conv, p.children[0].attrib["updated"]) == Ok(r.updated.value)
  {
    ActualsIn(conv, root, r);
    var a, p :| a in Iter(root, "FYActual") && p in Iter(a, "FYPeriod") && ActualOf(conv, a, p) == Ok(r);
    ActualOfRow(conv, a, p);
  }

  /** What one actual row holds. */
  lemma ActualOfRow(conv: Conv, a: Node, p: Node)
    requires ActualOf(conv, a, p).Ok?
    ensures var r := ActualOf(conv, a, p).value;
            && r.kind == Actual && r.estType == "" && r.updated.Some?
            && p.children != [] && ToFloat(conv, p.children[0].text) == Ok(r.value)
            && "updated" in p.children[0].attrib
            && ToTimestamp(conv, p.children[0].attrib["updated"]) == Ok(r.updated.value)
  {
  }

  /** The number of FYPeriod elements at or below an FYActual. */
  function PeriodCount(a: Node): nat {
    |Iter(a, "FYPeriod")|
  }

  /** There is exactly one actual row per (FYActual, FYPeriod) pair. */
  lemma ActualsCount(conv: Conv, root: Node)
    requires ActualsOf(conv, root).Ok?
    ensures |ActualsOf(conv, root).value| == Count(Iter(root, "FYActual"), PeriodCount)
  {
    var f := (a: Node) => ItemActuals(conv, a);
    forall a | a in Iter(root, "FYActual") && f(a).Ok?
      ensures |f(a).value| == PeriodCount(a)
    {
      MapResultOk(Iter(a, "FYPeriod"), (p: Node) => ActualOf(conv, a, p));
    }
    FlatMapCount(Iter(root, "FYActual"), f, PeriodCount);
  }

  /** An FYPeriod without children below an FYActual makes the call raise. */
  lemma ActualsEmptyPeriod(conv: Conv, root: Node, a: Node, p: Node)
    requires a in Iter(root, "FYActual") && p in Iter(a, "FYPeriod") && p.children == []
    ensures ActualsOf(conv, root).Err?
  {
    assert ActualOf(conv, a, p).Err?;
    MapResultOk(Iter(a, "FYPeriod"), (p: Node) => ActualOf(conv, a, p));
    FlatMapOk(Iter(root, "FYActual"), (a: Node) => ItemActuals(conv, a));
  }
}
