/**
 * `get_company_info`: the company identity read from the CoIDs and Issues
 * sections of a ReportsFinStatements tree through four dictionary
 * comprehensions and `dict.get`.
 */
module CompanyIdentity {
  import opened Wrappers
  import opened Seqs
  import opened XmlTree
  import opened Objects

  /** `findall("./CoIDs/CoID")`. */
  function CoIdNodes(root: Node): seq<Node> {
    ChildStep(ChildStep([root], "CoIDs"), "CoID")
  }

  /** `findall("./Issues/Issue/IssueID")`. */
  function IssueIdNodes(root: Node): seq<Node> {
    ChildStep(ChildStep(ChildStep([root], "Issues"), "Issue"), "IssueID")
  }

  /** `findall("./Issues/Issue/Exchange")`. */
  function ExchangeNodes(root: Node): seq<Node> {
    ChildStep(ChildStep(ChildStep([root], "Issues"), "Issue"), "Exchange")
  }

  function TypeKey(n: Node): Result<string> {
    Attr(n, "Type")
  }

  function TagKey(n: Node): Result<string> {
    Ok(n.tag)
  }

  function CodeKey(n: Node): Result<string> {
    Ok("code")
  }

  function TextValue(n: Node): Result<Option<string>> {
    Ok(n.text)
  }

  function CodeValue(n: Node): Result<Option<string>> {
    var c :- Attr(n, "Code");
    Ok(Some(c))
  }

  /** `d.get(key)`: `None` for a missing key; a stored `None` (an element without text) reads the same. */
  function Get(d: map<string, Option<string>>, key: string): Option<string> {
    if key in d then d[key] else None
  }

  /** What `get_company_info` returns for a tree, the four dictionaries built in source order. */
  function CompanyInfoOf(root: Node): Result<CompanyInfo> {
    var coids :- Dict(CoIdNodes(root), TypeKey, TextValue);
    var issueId :- Dict(IssueIdNodes(root), TypeKey, TextValue);
    var exchange :- Dict(ExchangeNodes(root), TagKey, TextValue);
    var exchangeCode :- Dict(ExchangeNodes(root), CodeKey, CodeValue);
    Ok(CompanyInfo(
      ticker := Get(issueId, "Ticker"),
      companyName := Get(coids, "CompanyName"),
      cik := Get(coids, "CIKNo"),
      exchangeCode := Get(exchangeCode, "code"),
      exchange := Get(exchange, "Exchange"),
      irs := Get(coids, "IRSNo")))
  }

  /** The text of the last element `p` picks, `None` when there is none or it has no text. */
  function LastText(xs: seq<Node>, p: Node -> bool): Option<string> {
    match Last(xs, p)
    case None => None
    case Some(n) => n.text
  }

  function Always(n: Node): bool {
    true
  }

  /** A `Type`-keyed dictionary read with `.get(t)` gives the text of the last element of type `t`. */
  lemma TypedGet(xs: seq<Node>, t: string)
    requires Dict(xs, TypeKey, TextValue).Ok?
    ensures Get(Dict(xs, TypeKey, TextValue).value, t) == LastText(xs, HasAttr("Type", t))
  {
    DictLast(xs, TypeKey, TextValue, t, HasAttr("Type", t));
  }

  /**
   * Every identity field comes from the last matching element: the company
   * name, CIK and IRS number from the last CoID of that `Type`, the ticker
   * from the last IssueID of type "Ticker", the exchange name from the text
   * of the last Exchange element and the exchange code from its `Code`
   * attribute. A field with no matching element is `None`.
   */
  lemma CompanyInfoFields(root: Node)
    requires CompanyInfoOf(root).Ok?
    ensures var info := CompanyInfoOf(root).value;
            && info.ticker == LastText(IssueIdNodes(root), HasAttr("Type", "Ticker"))
            && info.companyName == LastText(CoIdNodes(root), HasAttr("Type", "CompanyName"))
            && info.cik == LastText(CoIdNodes(root), HasAttr("Type", "CIKNo"))
            && info.irs == LastText(CoIdNodes(root), HasAttr("Type", "IRSNo"))
            && info.exchange == LastText(ExchangeNodes(root), HasTag("Exchange"))
            && (info.exchangeCode.Some? <==> Last(ExchangeNodes(root), Always).Some?)
            && (info.exchangeCode.Some? ==>
                  "Code" in Last(ExchangeNodes(root), Always).value.attrib
                  && info.exchangeCode.value == Last(ExchangeNodes(root), Always).value.attrib["Code"])
  {
    TypedGet(CoIdNodes(root), "CompanyName");
    TypedGet(CoIdNodes(root), "CIKNo");
    TypedGet(CoIdNodes(root), "IRSNo");
    TypedGet(IssueIdNodes(root), "Ticker");
    DictLast(ExchangeNodes(root), TagKey, TextValue, "Exchange", HasTag("Exchange"));
    DictLast(ExchangeNodes(root), CodeKey, CodeValue, "code", Always);
  }

  /** A CoID element without a `Type` attribute makes the call raise KeyError for that attribute. */
  lemma CompanyInfoMissingType(root: Node, j: nat)
    requires j < |CoIdNodes(root)| && "Type" !in CoIdNodes(root)[j].attrib
    ensures CompanyInfoOf(root) == Err(KeyError("Type"))
  {
    DictKeyErr(CoIdNodes(root), TypeKey, TextValue, j);
    DictErrFrom(CoIdNodes(root), TypeKey, TextValue);
  }
}
