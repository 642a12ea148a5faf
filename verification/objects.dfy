/**
 * The record classes of the package, their keyword constructors and defaults,
 * the literal vocabularies and the `statement_map` dispatch.
 *
 * A dataclass called with `**kwargs` raises TypeError for a keyword it does
 * not declare and for a required field left out; `Accepts` states that check
 * and every constructor that takes a dictionary goes through it. Fields the
 * source fills from raw XML text hold that text, whatever their annotation.
 */
module Objects {
  import opened Wrappers
  import opened Conversions

  // ---------------------------------------------------------------- vocabularies

  datatype StatementCode = INC | BAL | CAS

  /** The period a caller asks for. */
  datatype PeriodType = annual | quarter

  /** The six fundamental report kinds of the data provider. */
  datatype ReportType =
    | ReportsFinStatements
    | ReportsFinSummary
    | ReportSnapshot
    | RESC
    | ReportsOwnership
    | CalendarReport

  function CodeName(c: StatementCode): string {
    match c
    case INC => "INC"
    case BAL => "BAL"
    case CAS => "CAS"
  }

  function ReportTypeName(r: ReportType): string {
    match r
    case ReportsFinStatements => "ReportsFinStatements"
    case ReportsFinSummary => "ReportsFinSummary"
    case ReportSnapshot => "ReportSnapshot"
    case RESC => "RESC"
    case ReportsOwnership => "ReportsOwnership"
    case CalendarReport => "CalendarReport"
  }

  /** `cls(**kwargs)` of a dataclass: every keyword declared, every required field supplied. */
  predicate Accepts(declared: set<string>, required: set<string>, supplied: set<string>) {
    supplied <= declared && required <= supplied
  }

  // ---------------------------------------------------------------- financial statements

  datatype StatementClass = IncomeStatement | BalanceSheetStatement | CashFlowStatement

  /** `statement_map[code]`. */
  function StatementClassOf(code: StatementCode): StatementClass {
    match code
    case INC => IncomeStatement
    case BAL => BalanceSheetStatement
    case CAS => CashFlowStatement
  }

  /** `statement_map` sends each code to its own class and reaches every class. */
  lemma StatementMapBijective(c: StatementCode, d: StatementCode, cls: StatementClass)
    ensures StatementClassOf(c) == StatementClassOf(d) ==> c == d
    ensures exists e :: StatementClassOf(e) == cls
    ensures StatementClassOf(INC) == IncomeStatement && StatementClassOf(BAL) == BalanceSheetStatement
            && StatementClassOf(CAS) == CashFlowStatement
  {
    match cls
    case IncomeStatement => assert StatementClassOf(INC) == cls;
    case BalanceSheetStatement => assert StatementClassOf(BAL) == cls;
    case CashFlowStatement => assert StatementClassOf(CAS) == cls;
  }

  /** The line-item fields each statement class declares, all `Optional[float] = None`, in declaration order. */
  function FieldNames(cls: StatementClass): seq<string> {
    match cls
    case IncomeStatement =>
      ["srev", "sore", "rtlr", "scor", "sgrp", "ssga", "erad", "sdpr", "sinn", "suie", "sooe", "etoe",
       "sopi", "snin", "ngla", "sont", "eibt", "ttax", "tiat", "cmin", "ceia", "cgap", "nibx", "stxi",
       "ninc", "sani", "ciac", "xnic", "sdaj", "sdni", "sdws", "sdbf", "ddps1", "vdes"]
    case BalanceSheetStatement =>
      ["acsh", "acae", "asti", "scsi", "aacr", "atrc", "aitl", "appy", "soca", "atca", "aptc", "adep",
       "appn", "agwi", "aint", "sinv", "altr", "sola", "atot", "lapb", "lpba", "laex", "lstd", "lcld",
       "socl", "ltcl", "lltd", "lclo", "lttd", "stld", "sbdt", "lmin", "sltl", "ltll", "srpr", "sprs",
       "scms", "qpic", "qred", "qtsc", "qedg", "qugl", "sote", "qtle", "qtel", "qtco", "qtpo", "stbp"]
    case CashFlowStatement =>
      ["onet", "sded", "samt", "obdt", "snci", "socf", "otlo", "scex", "sicf", "itli", "sfcf", "fcdp",
       "fpss", "fprd", "ftlf", "sfee", "sncc", "scip", "sctp"]
  }

  /** `x` occurs in `names`. */
  predicate Member(x: string, names: seq<string>)
    decreases |names|
  {
    names != [] && (names[0] == x || Member(x, names[1..]))
  }

  /** `name` is a line-item field of the class. */
  predicate IsLineItem(cls: StatementClass, name: string) {
    Member(name, FieldNames(cls))
  }

  /** Every key is a line-item field of the class. */
  predicate Declares(cls: StatementClass, keys: set<string>) {
    forall k {:trigger IsLineItem(cls, k)} :: k in keys ==> IsLineItem(cls, k)
  }

  /**
   * `period_number`: the `FiscalPeriodNumber` text a quarter's metadata
   * passes, or, on an annual record, the value of a line item whose
   * `coaCode` lowers to "period_number", which the keyword call takes as
   * that field.
   */
  datatype PeriodNumber = PeriodText(text: string) | PeriodItem(value: Float)

  /**
   * A statement record. `items` holds the line items that were given a value;
   * every other declared line item reads as `None` (see `Field`).
   */
  datatype Statement = Statement(
    cls: StatementClass,
    period: Option<string>,
    endDate: Option<string>,
    fiscalYear: Option<string>,
    periodNumber: Option<PeriodNumber>,
    date10Q: string,
    date10K: string,
    items: map<string, Float>)

  /** The value of line item `name`: `None` unless the record was given one. */
  function Field(s: Statement, name: string): Option<Float>
    requires IsLineItem(s.cls, name)
  {
    if name in s.items then Some(s.items[name]) else None
  }

  /** The metadata keywords the parser passes: quarters carry a period number and a 10-Q date, years a 10-K date. */
  datatype Meta =
    | QuarterMeta(period: string, endDate: string, fiscalYear: string, periodNumber: string, date10Q: string)
    | AnnualMeta(period: string, endDate: string, fiscalYear: string, date10K: string)

  /**
   * The line-item keys `cls(**meta, **items)` accepts: line-item fields,
   * and `period_number` as well when the metadata does not pass it.
   */
  predicate Takes(cls: StatementClass, meta: Meta, keys: set<string>) {
    Declares(cls, if meta.AnnualMeta? then keys - {"period_number"} else keys)
  }

  /** `cls(**meta, **items)`. */
  function BuildStatement(cls: StatementClass, meta: Meta, items: map<string, Float>): Result<Statement> {
    if !Takes(cls, meta, items.Keys) then
      Err(TypeError("__init__() got an unexpected keyword argument"))
    else
      match meta
      case QuarterMeta(p, e, y, n, d) => Ok(Statement(cls, Some(p), Some(e), Some(y), Some(PeriodText(n)), d, "", items))
      case AnnualMeta(p, e, y, d) =>
        var n := if "period_number" in items then Some(PeriodItem(items["period_number"])) else None;
        Ok(Statement(cls, Some(p), Some(e), Some(y), n, "", d, items - {"period_number"}))
  }

  /**
   * The constructor accepts the line-item fields of the class, and on an
   * annual record `period_number` (TypeError for any other key). Line items
   * given are kept, every other one reads as `None` (absent, not zero), and
   * the metadata is copied: a quarter record gets its period number and
   * 10-Q date and keeps the 10-K date empty; an annual record gets its 10-K
   * date, keeps the 10-Q date empty, and has a period number only when a
   * line item supplied one.
   */
  lemma BuildStatementSpec(cls: StatementClass, meta: Meta, items: map<string, Float>)
    ensures var r := BuildStatement(cls, meta, items);
            && (r.Ok? <==> Takes(cls, meta, items.Keys))
            && (r.Err? ==> r.error.TypeError?)
            && (r.Ok? ==> r.value.cls == cls && Declares(cls, r.value.items.Keys))
            && (r.Ok? ==> forall name :: IsLineItem(cls, name) && name !in items ==> Field(r.value, name) == None)
            && (r.Ok? ==> r.value.period == Some(meta.period) && r.value.endDate == Some(meta.endDate)
                          && r.value.fiscalYear == Some(meta.fiscalYear))
            && (r.Ok? && meta.AnnualMeta? ==>
                  && r.value.items == items - {"period_number"}
                  && r.value.date10K == meta.date10K && r.value.date10Q == ""
                  && r.value.periodNumber == (if "period_number" in items then Some(PeriodItem(items["period_number"])) else None))
            && (r.Ok? && meta.QuarterMeta? ==>
                  && r.value.items == items
                  && r.value.date10Q == meta.date10Q && r.value.date10K == ""
                  && r.value.periodNumber == Some(PeriodText(meta.periodNumber)))
  {
  }

  /** A row of the chart-of-accounts mapping table. */
  datatype StatementMap = StatementMap(coaItem: string, mapItem: Option<string>, statementType: string, lineId: int)

  // ---------------------------------------------------------------- financial summary series

  datatype Dividend = Dividend(
    kind: string, exDate: Date, recordDate: Date, payDate: Date, declarationDate: Date,
    currency: string, value: Float)

  datatype DividendPerShare = DividendPerShare(
    asOfDate: Date, reportType: string, period: string, currency: string, value: Float)

  /**
   * A revenue point with the five fields the parser supplies. The class in
   * objects.py:205-211 declares only `as_of_date`, `report_type` and `revenue`
   * (`RevenueAsDeclared`), while the parser passes `period` and `currency` too
   * and the tests read `.period`.
   */
  datatype Revenue = Revenue(asOfDate: Date, reportType: string, period: string, currency: string, revenue: Float)

  /** An earnings-per-share point with the five fields the parser supplies (see `Revenue`). */
  datatype EarningsPerShare = EarningsPerShare(asOfDate: Date, reportType: string, period: string, currency: string, eps: Float)

  /** The revenue class as objects.py:205-211 declares it. */
  datatype RevenueAsDeclared = RevenueAsDeclared(asOfDate: Date, reportType: string, revenue: Float)

  /** The earnings-per-share class as objects.py:214-220 declares it. */
  datatype EarningsPerShareAsDeclared = EarningsPerShareAsDeclared(asOfDate: Date, reportType: string, eps: Float)

  const RevenueDeclared: set<string> := {"as_of_date", "report_type", "revenue"}
  const EpsDeclared: set<string> := {"as_of_date", "report_type", "eps"}

  /** The keywords `get_revenue` passes. */
  const RevenueSupplied: set<string> := {"as_of_date", "report_type", "period", "currency", "revenue"}

  /** The keywords `get_eps` passes. */
  const EpsSupplied: set<string> := {"as_of_date", "report_type", "period", "currency", "eps"}

  /** `Revenue(as_of_date=.., report_type=.., period=.., currency=.., revenue=..)` against the declared class: always TypeError. */
  function BuildRevenueAsDeclared(asOfDate: Date, reportType: string, revenue: Float): Result<RevenueAsDeclared> {
    if Accepts(RevenueDeclared, RevenueDeclared, RevenueSupplied) then Ok(RevenueAsDeclared(asOfDate, reportType, revenue))
    else Err(TypeError("__init__() got an unexpected keyword argument 'period'"))
  }

  /** The declared class rejects the `period` keyword the parser passes. */
  lemma BuildRevenueAsDeclaredFails(asOfDate: Date, reportType: string, revenue: Float)
    ensures BuildRevenueAsDeclared(asOfDate, reportType, revenue) == Err(TypeError("__init__() got an unexpected keyword argument 'period'"))
  {
    assert "period" in RevenueSupplied - RevenueDeclared;
  }

  /** `EarningsPerShare(.., period=.., currency=.., eps=..)` against the declared class: always TypeError. */
  function BuildEpsAsDeclared(asOfDate: Date, reportType: string, eps: Float): Result<EarningsPerShareAsDeclared> {
    if Accepts(EpsDeclared, EpsDeclared, EpsSupplied) then Ok(EarningsPerShareAsDeclared(asOfDate, reportType, eps))
    else Err(TypeError("__init__() got an unexpected keyword argument 'period'"))
  }

  /** The declared class rejects the `period` keyword the parser passes. */
  lemma BuildEpsAsDeclaredFails(asOfDate: Date, reportType: string, eps: Float)
    ensures BuildEpsAsDeclared(asOfDate, reportType, eps) == Err(TypeError("__init__() got an unexpected keyword argument 'period'"))
  {
    assert "period" in EpsSupplied - EpsDeclared;
  }

  // ---------------------------------------------------------------- snapshot and estimates

  /** The fields of `AnalystForecast`, all required. */
  const ForecastFields: set<string> :=
    {"cons_recom", "target_price", "proj_lt_growth_rate", "proj_pe", "proj_sales", "proj_sales_q",
     "proj_eps", "proj_epsq", "proj_profit", "proj_dps"}

  datatype AnalystForecast = AnalystForecast(fields: map<string, Float>)

  /** `AnalystForecast(**fields)`: exactly the ten declared fields. */
  function BuildAnalystForecast(fields: map<string, Float>): Result<AnalystForecast> {
    if Accepts(ForecastFields, ForecastFields, fields.Keys) then Ok(AnalystForecast(fields))
    else Err(TypeError("__init__() got an unexpected or missing keyword argument"))
  }

  /** The constructor takes exactly the ten declared fields, every one required; TypeError otherwise. */
  lemma BuildAnalystForecastSpec(fields: map<string, Float>)
    ensures var r := BuildAnalystForecast(fields);
            (r.Ok? <==> fields.Keys == ForecastFields)
            && (r.Ok? ==> r.value.fields == fields)
            && (r.Err? ==> r.error.TypeError?)
  {
  }

  /** The fields of `RatioSnapshot`, all required. */
  const RatioFields: set<string> :=
    {"nprice", "nhig", "nlow", "pdate", "vol10davg", "ev", "mktcap", "ttmrev", "ttmebitd", "ttmniac",
     "ttmepsxclx", "ttmrevps", "qbvps", "qcshps", "ttmcfshr", "ttmdivshr", "ttmgrosmgn", "ttmroepct",
     "ttmpr2rev", "peexclxor", "price2bk", "employees"}

  /** A ratio is a date when its node says `Type="D"`, a number otherwise. */
  datatype RatioValue = Number(number: Float) | Day(date: Date)

  datatype RatioSnapshot = RatioSnapshot(fields: map<string, RatioValue>)

  /** `RatioSnapshot(**fields)`: exactly the twenty-two declared fields. */
  function BuildRatioSnapshot(fields: map<string, RatioValue>): Result<RatioSnapshot> {
    if Accepts(RatioFields, RatioFields, fields.Keys) then Ok(RatioSnapshot(fields))
    else Err(TypeError("__init__() got an unexpected or missing keyword argument"))
  }

  /** The constructor takes exactly the twenty-two declared fields, every one required; TypeError otherwise. */
  lemma BuildRatioSnapshotSpec(fields: map<string, RatioValue>)
    ensures var r := BuildRatioSnapshot(fields);
            (r.Ok? <==> fields.Keys == RatioFields)
            && (r.Ok? ==> r.value.fields == fields)
            && (r.Err? ==> r.error.TypeError?)
  {
  }

  datatype ForwardKind = Estimate | Actual

  /**
   * A forward-year row. `estType` defaults to "" and `updated` to `None`:
   * estimate rows set the first, actual rows the second.
   */
  datatype ForwardYear = ForwardYear(
    kind: ForwardKind, item: string, unit: string, periodType: string,
    fyear: int, endMonth: int, endCalYear: int, value: Float,
    estType: string, updated: Option<Date>)

  /** The company identity; each field is `None` when its key was not found or its element had no text. */
  datatype CompanyInfo = CompanyInfo(
    ticker: Option<string>, companyName: Option<string>, cik: Option<string>,
    exchangeCode: Option<string>, exchange: Option<string>, irs: Option<string>)

  // ---------------------------------------------------------------- ownership

  datatype OwnershipCompany = OwnershipCompany(isin: Option<string>, floatShares: int, asOfDate: Date)

  /** A value in an owner's keyword dictionary: element text, a parsed quantity, or a parsed date. */
  datatype Cell = Text(text: Option<string>) | Quantity(quantity: Float) | When(date: Date)

  const DetailsFields: set<string> := {"owner_id", "type", "as_of_date", "name", "quantity", "currency"}
  const DetailsRequired: set<string> := {"owner_id", "type", "as_of_date", "name", "quantity"}

  /** An owner's record: its keyword dictionary, `currency` defaulted to "". */
  datatype OwnershipDetails = OwnershipDetails(fields: map<string, Cell>)

  /** `OwnershipDetails(**d)`. */
  function BuildOwnershipDetails(d: map<string, Cell>): Result<OwnershipDetails> {
    if Accepts(DetailsFields, DetailsRequired, d.Keys) then
      Ok(OwnershipDetails(if "currency" in d then d else d["currency" := Text(Some(""))]))
    else
      Err(TypeError("__init__() got an unexpected or missing keyword argument"))
  }

  /** The constructor takes the five required fields and an optional `currency`, which defaults to "". */
  lemma BuildOwnershipDetailsSpec(d: map<string, Cell>)
    ensures var r := BuildOwnershipDetails(d);
            (r.Ok? <==> d.Keys <= DetailsFields && DetailsRequired <= d.Keys)
            && (r.Err? ==> r.error.TypeError?)
            && (r.Ok? ==> r.value.fields.Keys == DetailsFields)
            && (r.Ok? ==> forall k :: k in d ==> r.value.fields[k] == d[k])
            && (r.Ok? && "currency" !in d ==> r.value.fields["currency"] == Text(Some("")))
  {
  }

  datatype OwnershipReport = OwnershipReport(company: OwnershipCompany, details: seq<OwnershipDetails>)
}
