/**
 * The ReportSnapshot extractors: `get_analyst_forecast` and `get_ratios`.
 * Each builds a dictionary from a list of Ratio elements, one key per
 * `FieldName` (renamed), and passes it to a record class as keywords.
 */
module Snapshot {
  import opened Wrappers
  import opened Seqs
  import opened XmlTree
  import opened Conversions
  import opened Utils
  import opened Objects

  // ---------------------------------------------------------------- analyst forecast

  /** `findall(".//ForecastData/Ratio")`. */
  function ForecastNodes(root: Node): seq<Node> {
    ChildStep(DescendantStep([root], "ForecastData"), "Ratio")
  }

  /** `camel_to_snake(g.attrib["FieldName"])`. */
  function ForecastKey(g: Node): Result<string> {
    var name :- Attr(g, "FieldName");
    Ok(CamelToSnake(name))
  }

  /** `float(g.findall("./Value")[0].text)`: IndexError for a Ratio without a Value child. */
  function ForecastValue(conv: Conv, g: Node): Result<Float> {
    var values := ChildStep([g], "Value");
    if values == [] then Err(IndexError) else ToFloat(conv, values[0].text)
  }

  function ForecastReader(conv: Conv): Node -> Result<Float> {
    (g: Node) => ForecastValue(conv, g)
  }

  /** `get_analyst_forecast`: the dictionary comprehension, then `AnalystForecast(**d)`. */
  function AnalystForecastOf(conv: Conv, root: Node): Result<AnalystForecast> {
    var fields :- Dict(ForecastNodes(root), ForecastKey, ForecastReader(conv));
    BuildAnalystForecast(fields)
  }

  /** The Ratio elements whose field name converts to `k`. */
  function ForecastNamed(k: string): Node -> bool {
    (g: Node) => ForecastKey(g) == Ok(k)
  }

  /**
   * A forecast holds exactly the ten declared fields; field `k` is there
   * exactly when some Ratio's `FieldName` converts to `k`, and then it is
   * the first Value of the last such Ratio.
   */
  lemma AnalystForecastFields(conv: Conv, root: Node, k: string)
    requires AnalystForecastOf(conv, root).Ok?
    ensures var f := AnalystForecastOf(conv, root).value.fields;
            && f.Keys == ForecastFields
            && (k in f <==> Last(ForecastNodes(root), ForecastNamed(k)).Some?)
            && (k in f ==> ForecastValue(conv, Last(ForecastNodes(root), ForecastNamed(k)).value) == Ok(f[k]))
  {
    var fields := Dict(ForecastNodes(root), ForecastKey, ForecastReader(conv)).value;
    BuildAnalystForecastSpec(fields);
    DictLast(ForecastNodes(root), ForecastKey, ForecastReader(conv), k, ForecastNamed(k));
  }

  /** A Ratio without a `FieldName`, or with one but without a Value child, makes the call raise. */
  lemma AnalystForecastRaises(conv: Conv, root: Node, j: nat)
    requires j < |ForecastNodes(root)|
    requires var g := ForecastNodes(root)[j];
             "FieldName" !in g.attrib || ChildStep([g], "Value") == []
    ensures AnalystForecastOf(conv, root).Err?
  {
    var g := ForecastNodes(root)[j];
    if "FieldName" !in g.attrib {
      DictKeyErr(ForecastNodes(root), ForecastKey, ForecastReader(conv), j);
    } else {
      DictValErr(ForecastNodes(root), ForecastKey, ForecastReader(conv), j);
    }
  }

  // ---------------------------------------------------------------- ratios

  /** `findall(".//Ratios/Group/Ratio")`. */
  function RatioNodes(root: Node): seq<Node> {
    ChildStep(ChildStep(DescendantStep([root], "Ratios"), "Group"), "Ratio")
  }

  /** `r.attrib["FieldName"].lower()`. */
  function RatioKey(r: Node): Result<string> {
    var name :- Attr(r, "FieldName");
    Ok(Lower(name))
  }

  /** `fromisoformat(r.text) if r.attrib["Type"] == "D" else float(r.text)`. */
  function RatioValueOf(conv: Conv, r: Node): Result<RatioValue> {
    var t :- Attr(r, "Type");
    if t == "D" then
      var d :- ToIsoDate(conv, r.text);
      Ok(Day(d))
    else
      var x :- ToFloat(conv, r.text);
      Ok(Number(x))
  }

  function RatioReader(conv: Conv): Node -> Result<RatioValue> {
    (r: Node) => RatioValueOf(conv, r)
  }

  /** `get_ratios`: the dictionary comprehension, then `RatioSnapshot(**d)`. */
  function RatiosOf(conv: Conv, root: Node): Result<RatioSnapshot> {
    var fields :- Dict(RatioNodes(root), RatioKey, RatioReader(conv));
    BuildRatioSnapshot(fields)
  }

  /** The Ratio elements whose lower-cased field name is `k`. */
  function RatioNamed(k: string): Node -> bool {
    (r: Node) => RatioKey(r) == Ok(k)
  }

  /** A ratio is a date exactly when its element says `Type="D"`, and it is the parse of the element's text. */
  lemma RatioValueDispatch(conv: Conv, r: Node)
    requires RatioValueOf(conv, r).Ok?
    ensures var v := RatioValueOf(conv, r).value;
            && "Type" in r.attrib
            && (v.Day? <==> r.attrib["Type"] == "D")
            && (v.Day? ==> ToIsoDate(conv, r.text) == Ok(v.date))
            && (v.Number? ==> ToFloat(conv, r.text) == Ok(v.number))
  {
  }

  /**
   * A snapshot holds exactly the twenty-two declared fields; field `k` is
   * there exactly when some Ratio's lower-cased `FieldName` is `k`, and then
   * it is the value of the last such Ratio, a date exactly when that Ratio
   * says `Type="D"`.
   */
  lemma RatiosFields(conv: Conv, root: Node, k: string)
    requires RatiosOf(conv, root).Ok?
    ensures var f := RatiosOf(conv, root).value.fields;
            var last := Last(RatioNodes(root), RatioNamed(k));
            && f.Keys == RatioFields
            && (k in f <==> last.Some?)
            && (k in f ==> RatioValueOf(conv, last.value) == Ok(f[k]))
            && (k in f ==> (f[k].Day? <==> last.value.attrib["Type"] == "D"))
  {
    var fields := Dict(RatioNodes(root), RatioKey, RatioReader(conv)).value;
    BuildRatioSnapshotSpec(fields);
    var last := Last(RatioNodes(root), RatioNamed(k));
    DictLast(RatioNodes(root), RatioKey, RatioReader(conv), k, RatioNamed(k));
    if k in fields {
      RatioValueDispatch(conv, last.value);
    }
  }

  /** Every key of the ratio dictionary is lower-case: a mixed-case `FieldName` never reaches the record as such. */
  lemma RatioKeysLower(conv: Conv, root: Node, k: string)
    requires Dict(RatioNodes(root), RatioKey, RatioReader(conv)).Ok?
    requires k in Dict(RatioNodes(root), RatioKey, RatioReader(conv)).value
    ensures NoUpper(k)
  {
    DictKeys(RatioNodes(root), RatioKey, RatioReader(conv), k);
  }

  /** A Ratio without `FieldName` or `Type`, or whose value does not parse, makes the call raise. */
  lemma RatiosRaises(conv: Conv, root: Node, j: nat)
    requires j < |RatioNodes(root)|
    requires RatioKey(RatioNodes(root)[j]).Err? || RatioValueOf(conv, RatioNodes(root)[j]).Err?
    ensures RatiosOf(conv, root).Err?
  {
    if RatioKey(RatioNodes(root)[j]).Err? {
      DictKeyErr(RatioNodes(root), RatioKey, RatioReader(conv), j);
    } else {
      DictValErr(RatioNodes(root), RatioKey, RatioReader(conv), j);
    }
  }
}
