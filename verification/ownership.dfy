/**
 * `get_ownership_report`: the company block (one ISIN and one floatShares
 * element) and, for every Owner element, a keyword dictionary filled child by
 * child and passed to `OwnershipDetails`.
 */
module Ownership {
  import opened Wrappers
  import opened Seqs
  import opened XmlTree
  import opened Conversions
  import opened Objects

  /** `(x,) = xs`: ValueError unless there is exactly one element. */
  function Single(xs: seq<Node>): (r: Result<Node>)
    ensures r.Ok? <==> |xs| == 1
    ensures r.Ok? ==> r.value == xs[0]
    ensures r.Err? ==> r.error.ValueError?
  {
    if |xs| == 0 then Err(ValueError("not enough values to unpack (expected 1, got 0)"))
    else if |xs| > 1 then Err(ValueError("too many values to unpack (expected 1)"))
    else Ok(xs[0])
  }

  /** `OwnershipCompany(ISIN=isin.text, float_shares=int(fa.text), as_of_date=fromisoformat(fa.attrib["asofDate"]))`. */
  function CompanyOf(conv: Conv, fs: Node): Result<OwnershipCompany> {
    var isin :- Single(ChildStep([fs], "ISIN"));
    var fa :- Single(ChildStep([fs], "floatShares"));
    var floatShares :- ToInt(conv, fa.text);
    var asOfDate :- IsoAttr(conv, fa, "asofDate");
    Ok(OwnershipCompany(isin.text, floatShares, asOfDate))
  }

  // ---------------------------------------------------------------- one owner

  /** `float(j.text) if j.tag == "quantity" else j.text`. */
  function CellOf(conv: Conv, j: Node): Result<Cell> {
    if j.tag == "quantity" then
      var q :- ToFloat(conv, j.text);
      Ok(Quantity(q))
    else
      Ok(Text(j.text))
  }

  /** The date is taken from the first child that has any attribute, unless the dictionary already has one. */
  function AsOfStep(conv: Conv, d: map<string, Cell>, j: Node): Result<map<string, Cell>> {
    if "as_of_date" !in d && j.attrib != map[] then
      var t :- IsoAttr(conv, j, "asofDate");
      Ok(d["as_of_date" := When(t)])
    else
      Ok(d)
  }

  /** The body of the inner loop for child `j`: the date test, then `d[j.tag] = ...`. */
  function OwnerStep(conv: Conv, d: map<string, Cell>, j: Node): Result<map<string, Cell>> {
    var d1 :- AsOfStep(conv, d, j);
    var c :- CellOf(conv, j);
    Ok(d1[j.tag := c])
  }

  /** The dictionary after the inner loop has run over `cs`, starting from `d`. */
  function FoldChildren(conv: Conv, d: map<string, Cell>, cs: seq<Node>): Result<map<string, Cell>>
    decreases |cs|
  {
    if cs == [] then Ok(d)
    else
      var m :- FoldChildren(conv, d, cs[..|cs| - 1]);
      OwnerStep(conv, m, cs[|cs| - 1])
  }

  /** The dictionary `d` built for Owner element `i`. */
  function OwnerFields(conv: Conv, i: Node): Result<map<string, Cell>> {
    var id :- Attr(i, "ownerId");
    FoldChildren(conv, map["owner_id" := Text(Some(id))], i.children)
  }

  /** `OwnershipDetails(**d)` for Owner element `i`. */
  function OwnerOf(conv: Conv, i: Node): Result<OwnershipDetails> {
    var d :- OwnerFields(conv, i);
    BuildOwnershipDetails(d)
  }

  function OwnerReader(conv: Conv): Node -> Result<OwnershipDetails> {
    (i: Node) => OwnerOf(conv, i)
  }

  /** What `get_ownership_report` returns for the ownership tree `fs`. */
  function OwnershipReportOf(conv: Conv, fs: Node): Result<OwnershipReport> {
    var company :- CompanyOf(conv, fs);
    var details :- MapResult(ChildStep([fs], "Owner"), OwnerReader(conv));
    Ok(OwnershipReport(company, details))
  }

  // ---------------------------------------------------------------- the loops

  /** One more child: the fold over the longer prefix is the step on the fold over the shorter. */
  lemma FoldSnoc(conv: Conv, d0: map<string, Cell>, cs: seq<Node>, m: nat, d: map<string, Cell>)
    requires m < |cs| && FoldChildren(conv, d0, cs[..m]) == Ok(d)
    ensures FoldChildren(conv, d0, cs[..m + 1]) == OwnerStep(conv, d, cs[m])
  {
    assert cs[..m + 1][..m] == cs[..m];
  }

  /** An exception raised on a prefix of the children is the exception of the whole loop. */
  lemma {:induction false} FoldPrefixErr(conv: Conv, d0: map<string, Cell>, cs: seq<Node>, m: nat)
    requires m <= |cs| && FoldChildren(conv, d0, cs[..m]).Err?
    ensures FoldChildren(conv, d0, cs) == FoldChildren(conv, d0, cs[..m])
    decreases |cs|
  {
    if m == |cs| {
      assert cs[..m] == cs;
    } else {
      var pre := cs[..|cs| - 1];
      assert pre[..m] == cs[..m];
      FoldPrefixErr(conv, d0, pre, m);
      assert FoldChildren(conv, d0, pre).Err?;
    }
  }

  /** The inner loop of `get_ownership_report`: fills the dictionary of one Owner element in place. */
  method OwnerDict(conv: Conv, i: Node) returns (r: Result<map<string, Cell>>)
    ensures r == OwnerFields(conv, i)
  {
    var id :- Attr(i, "ownerId");
    var d := map["owner_id" := Text(Some(id))];
    ghost var d0 := d;
    var cs := i.children;
    var m := 0;
    while m < |cs|
      invariant 0 <= m <= |cs|
      invariant FoldChildren(conv, d0, cs[..m]) == Ok(d)
    {
      var j := cs[m];
      FoldSnoc(conv, d0, cs, m, d);
      if "as_of_date" !in d && j.attrib != map[] {
        var t := IsoAttr(conv, j, "asofDate");
        if t.Err? {
          FoldPrefixErr(conv, d0, cs, m + 1);
          return Err(t.error);
        }
        d := d["as_of_date" := When(t.value)];
      }
      if j.tag == "quantity" {
        var q := ToFloat(conv, j.text);
        if q.Err? {
          FoldPrefixErr(conv, d0, cs, m + 1);
          return Err(q.error);
        }
        d := d[j.tag := Quantity(q.value)];
      } else {
        d := d[j.tag := Text(j.text)];
      }
      m := m + 1;
    }
    assert cs[..m] == cs;
    r := Ok(d);
  }

  /** `get_ownership_report`: the company block, then the owners appended one by one. */
  method GetOwnershipReport(conv: Conv, fs: Node) returns (r: Result<OwnershipReport>)
    ensures r == OwnershipReportOf(conv, fs)
  {
    var company :- CompanyOf(conv, fs);
    var owners := ChildStep([fs], "Owner");
    var details: seq<OwnershipDetails> := [];
    var k := 0;
    while k < |owners|
      invariant 0 <= k <= |owners|
      invariant MapResult(owners[..k], OwnerReader(conv)) == Ok(details)
    {
      MapResultSnoc(owners, OwnerReader(conv), k, details);
      var d := OwnerDict(conv, owners[k]);
      if d.Err? {
        MapResultPrefixErr(owners, OwnerReader(conv), k + 1);
        return Err(d.error);
      }
      var owner := BuildOwnershipDetails(d.value);
      if owner.Err? {
        MapResultPrefixErr(owners, OwnerReader(conv), k + 1);
        return Err(owner.error);
      }
      details := details + [owner.value];
      k := k + 1;
    }
    assert owners[..k] == owners;
    r := Ok(OwnershipReport(company, details));
  }

  // ---------------------------------------------------------------- properties

  /**
   * The company block needs exactly one ISIN and exactly one floatShares
   * element; the ISIN is the text of the first, the share count the integer
   * in the text of the second, the date its `asofDate` attribute.
   */
  lemma CompanyUnpack(conv: Conv, fs: Node)
    ensures |ChildStep([fs], "ISIN")| != 1 ==> CompanyOf(conv, fs).Err? && CompanyOf(conv, fs).error.ValueError?
    ensures |ChildStep([fs], "ISIN")| == 1 && |ChildStep([fs], "floatShares")| != 1 ==>
              CompanyOf(conv, fs).Err? && CompanyOf(conv, fs).error.ValueError?
    ensures CompanyOf(conv, fs).Ok? ==>
              var c := CompanyOf(conv, fs).value;
              var fa := ChildStep([fs], "floatShares")[0];
              && |ChildStep([fs], "ISIN")| == 1 && |ChildStep([fs], "floatShares")| == 1
              && c.isin == ChildStep([fs], "ISIN")[0].text
              && ToInt(conv, fa.text) == Ok(c.floatShares)
              && IsoAttr(conv, fa, "asofDate") == Ok(c.asOfDate)
  {
  }

  /** A report has one detail record per Owner element, in document order. */
  lemma OwnershipDetailsPerOwner(conv: Conv, fs: Node, k: nat)
    requires OwnershipReportOf(conv, fs).Ok? && k < |ChildStep([fs], "Owner")|
    ensures var r := OwnershipReportOf(conv, fs).value;
            && |r.details| == |ChildStep([fs], "Owner")|
            && OwnerOf(conv, ChildStep([fs], "Owner")[k]) == Ok(r.details[k])
  {
    MapResultAt(ChildStep([fs], "Owner"), OwnerReader(conv), k);
  }

  /** `if j.attrib:` -- the element has at least one attribute. */
  predicate Attributed(j: Node) {
    j.attrib != map[]
  }

  /** The keys one step adds: the child's tag, and `as_of_date` when the child sets the date. */
  lemma StepKeys(conv: Conv, d: map<string, Cell>, j: Node)
    requires OwnerStep(conv, d, j).Ok?
    ensures OwnerStep(conv, d, j).value.Keys ==
              d.Keys + {j.tag} + (if "as_of_date" !in d && Attributed(j) then {"as_of_date"} else {})
  {
  }

  /**
   * The keys the loop adds are the children's tags, and `as_of_date` when some
   * child has an attribute; nothing the dictionary held is removed.
   */
  lemma {:induction false} FoldKeys(conv: Conv, d0: map<string, Cell>, cs: seq<Node>, key: string)
    requires FoldChildren(conv, d0, cs).Ok?
    ensures key in FoldChildren(conv, d0, cs).value <==>
              key in d0 || (exists j :: j in cs && j.tag == key)
              || (key == "as_of_date" && exists j :: j in cs && Attributed(j))
    decreases |cs|
  {
    if cs != [] {
      var n := |cs| - 1;
      var prev := FoldChildren(conv, d0, cs[..n]).value;
      FoldKeys(conv, d0, cs[..n], key);
      StepKeys(conv, prev, cs[n]);
      assert FoldChildren(conv, d0, cs) == OwnerStep(conv, prev, cs[n]);
      assert forall j :: j in cs <==> j in cs[..n] || j == cs[n] by {
        assert cs == cs[..n] + [cs[n]];
      }
      if key == "as_of_date" && "as_of_date" in prev {
        assert key in FoldChildren(conv, d0, cs).value;
      }
    }
  }

  /**
   * For a key other than `as_of_date`, the value is that of the last child
   * with that tag: its text, or for `quantity` its text as a float.
   */
  lemma {:induction false} FoldLastTag(conv: Conv, d0: map<string, Cell>, cs: seq<Node>, tag: string)
    requires FoldChildren(conv, d0, cs).Ok?
    requires tag != "as_of_date" && Last(cs, HasTag(tag)).Some?
    ensures tag in FoldChildren(conv, d0, cs).value
    ensures CellOf(conv, Last(cs, HasTag(tag)).value) == Ok(FoldChildren(conv, d0, cs).value[tag])
    decreases |cs|
  {
    var n := |cs| - 1;
    if cs[n].tag != tag {
      FoldLastTag(conv, d0, cs[..n], tag);
    }
  }

  /** A key that no child names keeps the value it started with. */
  lemma {:induction false} FoldUntouched(conv: Conv, d0: map<string, Cell>, cs: seq<Node>, key: string)
    requires FoldChildren(conv, d0, cs).Ok?
    requires key != "as_of_date" && key in d0 && Last(cs, HasTag(key)).None?
    ensures key in FoldChildren(conv, d0, cs).value && FoldChildren(conv, d0, cs).value[key] == d0[key]
    decreases |cs|
  {
    if cs != [] {
      FoldUntouched(conv, d0, cs[..|cs| - 1], key);
    }
  }

  /** Without a child that has an attribute (or is tagged `as_of_date`), the dictionary gets no date. */
  lemma {:induction false} FoldNoAsOf(conv: Conv, d0: map<string, Cell>, cs: seq<Node>)
    requires FoldChildren(conv, d0, cs).Ok? && "as_of_date" !in d0
    requires forall k :: 0 <= k < |cs| ==> cs[k].tag != "as_of_date" && !Attributed(cs[k])
    ensures "as_of_date" !in FoldChildren(conv, d0, cs).value
    decreases |cs|
  {
    if cs != [] {
      var n := |cs| - 1;
      assert forall k :: 0 <= k < n ==> cs[..n][k] == cs[k];
      FoldNoAsOf(conv, d0, cs[..n]);
    }
  }

  /**
   * When no child is tagged `as_of_date`, the date is read from the `asofDate`
   * attribute of the first child that has any attribute: later children do
   * not change it.
   */
  lemma {:induction false} FoldFirstAsOf(conv: Conv, d0: map<string, Cell>, cs: seq<Node>, j0: nat)
    requires FoldChildren(conv, d0, cs).Ok? && "as_of_date" !in d0
    requires forall k :: 0 <= k < |cs| ==> cs[k].tag != "as_of_date"
    requires j0 < |cs| && Attributed(cs[j0]) && forall k :: 0 <= k < j0 ==> !Attributed(cs[k])
    ensures IsoAttr(conv, cs[j0], "asofDate").Ok?
    ensures "as_of_date" in FoldChildren(conv, d0, cs).value
    ensures FoldChildren(conv, d0, cs).value["as_of_date"] == When(IsoAttr(conv, cs[j0], "asofDate").value)
    decreases |cs|
  {
    var n := |cs| - 1;
    assert forall k :: 0 <= k < n ==> cs[..n][k] == cs[k];
    if j0 < n {
      FoldFirstAsOf(conv, d0, cs[..n], j0);
    } else {
      FoldNoAsOf(conv, d0, cs[..n]);
    }
  }

  /** The starting dictionary of Owner element `i`. */
  function OwnerStart(i: Node): map<string, Cell>
    requires "ownerId" in i.attrib
  {
    map["owner_id" := Text(Some(i.attrib["ownerId"]))]
  }

  /** `owner_id` is the element's `ownerId` attribute, unless a child is tagged `owner_id`. */
  lemma OwnerRecordId(conv: Conv, i: Node)
    requires OwnerOf(conv, i).Ok? && Last(i.children, HasTag("owner_id")).None?
    ensures OwnerOf(conv, i).value.fields["owner_id"] == Text(Some(i.attrib["ownerId"]))
  {
    var d := FoldChildren(conv, OwnerStart(i), i.children).value;
    BuildOwnershipDetailsSpec(d);
    FoldUntouched(conv, OwnerStart(i), i.children, "owner_id");
  }

  /** `currency` is "" when no child gives one. */
  lemma OwnerRecordCurrency(conv: Conv, i: Node)
    requires OwnerOf(conv, i).Ok? && Last(i.children, HasTag("currency")).None?
    ensures OwnerOf(conv, i).value.fields["currency"] == Text(Some(""))
  {
    var d := FoldChildren(conv, OwnerStart(i), i.children).value;
    BuildOwnershipDetailsSpec(d);
    FoldKeys(conv, OwnerStart(i), i.children, "currency");
    if "currency" in d {
      var j :| j in i.children && j.tag == "currency";
      var k :| 0 <= k < |i.children| && i.children[k] == j;
      LastFinds(i.children, HasTag("currency"), k);
    }
  }

  /** Every other field named by a child comes from the last child with that tag, `quantity` as a float. */
  lemma OwnerRecordTag(conv: Conv, i: Node, tag: string)
    requires OwnerOf(conv, i).Ok? && tag != "as_of_date" && Last(i.children, HasTag(tag)).Some?
    ensures tag in OwnerOf(conv, i).value.fields
    ensures CellOf(conv, Last(i.children, HasTag(tag)).value) == Ok(OwnerOf(conv, i).value.fields[tag])
  {
    var d := FoldChildren(conv, OwnerStart(i), i.children).value;
    BuildOwnershipDetailsSpec(d);
    FoldLastTag(conv, OwnerStart(i), i.children, tag);
  }

  /** When no child is tagged `as_of_date`, the date comes from the first child that has an attribute. */
  lemma OwnerRecordAsOf(conv: Conv, i: Node, j0: nat)
    requires OwnerOf(conv, i).Ok?
    requires forall k :: 0 <= k < |i.children| ==> i.children[k].tag != "as_of_date"
    requires j0 < |i.children| && Attributed(i.children[j0])
    requires forall k :: 0 <= k < j0 ==> !Attributed(i.children[k])
    ensures IsoAttr(conv, i.children[j0], "asofDate").Ok? && "as_of_date" in OwnerOf(conv, i).value.fields
    ensures OwnerOf(conv, i).value.fields["as_of_date"] == When(IsoAttr(conv, i.children[j0], "asofDate").value)
  {
    var d := FoldChildren(conv, OwnerStart(i), i.children).value;
    BuildOwnershipDetailsSpec(d);
    FoldFirstAsOf(conv, OwnerStart(i), i.children, j0);
  }

  /** Every child tag becomes a keyword: an Owner with a child outside the six fields makes the call raise TypeError. */
  lemma OwnerUnexpectedChild(conv: Conv, i: Node, k: nat)
    requires OwnerFields(conv, i).Ok?
    requires k < |i.children| && i.children[k].tag !in DetailsFields
    ensures OwnerOf(conv, i).Err? && OwnerOf(conv, i).error.TypeError?
  {
    var d0 := OwnerStart(i);
    var d := FoldChildren(conv, d0, i.children).value;
    FoldKeys(conv, d0, i.children, i.children[k].tag);
    BuildOwnershipDetailsSpec(d);
  }

  /** An Owner none of whose children has an attribute gets no date, and its record cannot be built. */
  lemma OwnerWithoutDate(conv: Conv, i: Node)
    requires OwnerFields(conv, i).Ok?
    requires forall k :: 0 <= k < |i.children| ==> i.children[k].tag != "as_of_date" && !Attributed(i.children[k])
    ensures OwnerOf(conv, i).Err? && OwnerOf(conv, i).error.TypeError?
  {
    var d0 := OwnerStart(i);
    var d := FoldChildren(conv, d0, i.children).value;
    FoldNoAsOf(conv, d0, i.children);
    BuildOwnershipDetailsSpec(d);
  }
}
