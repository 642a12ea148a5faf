/**
 * `XMLParser`: the extractors of xml_parser.py, each reading its report
 * through the parser's `XMLReport` cache. Each `...For` function says what a
 * getter returns for a given provider: the report's failure when the provider
 * has no such report, otherwise the extractor applied to its tree.
 */
module Parser {
  import opened Wrappers
  import opened XmlTree
  import opened Conversions
  import opened Objects
  import opened Report
  import FinStatements
  import CompanyIdentity
  import FinSummary
  import Snapshot
  import Estimates
  import Ownership

  function FinStatementFor(provider: Provider, conv: Conv, code: StatementCode, period: PeriodType, endDate: Option<string>)
    : Result<seq<Statement>>
  {
    var tree :- ReqFund(provider, ReportsFinStatements);
    FinStatements.FinStatement(conv, tree, code, period, endDate)
  }

  function MapItemsFor(provider: Provider, conv: Conv, statement: Option<StatementCode>): Result<seq<StatementMap>> {
    var tree :- ReqFund(provider, ReportsFinStatements);
    FinStatements.MapItems(conv, tree, statement)
  }

  function OwnershipReportFor(provider: Provider, conv: Conv): Result<OwnershipReport> {
    var tree :- ReqFund(provider, ReportsOwnership);
    Ownership.OwnershipReportOf(conv, tree)
  }

  function DividendsFor(provider: Provider, conv: Conv): Result<Option<seq<Dividend>>> {
    var tree :- ReqFund(provider, ReportsFinSummary);
    FinSummary.Dividends(conv, tree)
  }

  function DivPerShareFor(provider: Provider, conv: Conv, reportType: Option<string>, period: Option<string>)
    : Result<Option<seq<DividendPerShare>>>
  {
    var tree :- ReqFund(provider, ReportsFinSummary);
    FinSummary.DivPerShare(conv, tree, reportType, period)
  }

  function RevenuesFor(provider: Provider, conv: Conv, reportType: Option<string>, period: Option<string>)
    : Result<seq<Revenue>>
  {
    var tree :- ReqFund(provider, ReportsFinSummary);
    FinSummary.Revenues(conv, tree, reportType, period)
  }

  function EpsFor(provider: Provider, conv: Conv, reportType: Option<string>, period: Option<string>)
    : Result<seq<EarningsPerShare>>
  {
    var tree :- ReqFund(provider, ReportsFinSummary);
    FinSummary.Eps(conv, tree, reportType, period)
  }

  function AnalystForecastFor(provider: Provider, conv: Conv): Result<AnalystForecast> {
    var tree :- ReqFund(provider, ReportSnapshot);
    Snapshot.AnalystForecastOf(conv, tree)
  }

  function RatiosFor(provider: Provider, conv: Conv): Result<RatioSnapshot> {
    var tree :- ReqFund(provider, ReportSnapshot);
    Snapshot.RatiosOf(conv, tree)
  }

  function EstimatesFor(provider: Provider, conv: Conv): Result<seq<ForwardYear>> {
    var tree :- ReqFund(provider, RESC);
    Estimates.EstimatesOf(conv, tree)
  }

  function ActualsFor(provider: Provider, conv: Conv): Result<seq<ForwardYear>> {
    var tree :- ReqFund(provider, RESC);
    Estimates.ActualsOf(conv, tree)
  }

  function CompanyInfoFor(provider: Provider): Result<CompanyInfo> {
    var tree :- ReqFund(provider, ReportsFinStatements);
    CompanyIdentity.CompanyInfoOf(tree)
  }

  class XMLParser {
    const xmlReport: XMLReport
    /** The text conversions (`float`, `int`, `fromisoformat`, `to_datetime`). */
    const conv: Conv

    /** `XMLParser(ib_client)`: a fresh, empty report cache; nothing is requested. */
    constructor (provider: Provider, conv: Conv)
      ensures fresh(xmlReport)
      ensures xmlReport.provider == provider && this.conv == conv
      ensures xmlReport.requests == [] && forall kind :: xmlReport.Slot(kind).None?
      ensures xmlReport.Valid()
    {
      xmlReport := new XMLReport(provider);
      this.conv := conv;
    }

    method GetFinStatement(code: StatementCode, period: PeriodType, endDate: Option<string>)
      returns (r: Result<seq<Statement>>)
      requires xmlReport.Valid()
      modifies xmlReport
      ensures xmlReport.Valid() && xmlReport.Fetched(ReportsFinStatements)
      ensures r == FinStatementFor(xmlReport.provider, conv, code, period, endDate)
    {
      var tree :- xmlReport.FinStatements();
      r := FinStatements.GetFinStatement(conv, tree, code, period, endDate);
    }

    method GetMapItems(statement: Option<StatementCode>) returns (r: Result<seq<StatementMap>>)
      requires xmlReport.Valid()
      modifies xmlReport
      ensures xmlReport.Valid() && xmlReport.Fetched(ReportsFinStatements)
      ensures r == MapItemsFor(xmlReport.provider, conv, statement)
    {
      var tree :- xmlReport.FinStatements();
      r := FinStatements.MapItems(conv, tree, statement);
    }

    method GetOwnershipReport() returns (r: Result<OwnershipReport>)
      requires xmlReport.Valid()
      modifies xmlReport
      ensures xmlReport.Valid() && xmlReport.Fetched(ReportsOwnership)
      ensures r == OwnershipReportFor(xmlReport.provider, conv)
    {
      var tree :- xmlReport.Ownership();
      r := Ownership.GetOwnershipReport(conv, tree);
    }

    method GetDividend() returns (r: Result<Option<seq<Dividend>>>)
      requires xmlReport.Valid()
      modifies xmlReport
      ensures xmlReport.Valid() && xmlReport.Fetched(ReportsFinSummary)
      ensures r == DividendsFor(xmlReport.provider, conv)
    {
      var tree :- xmlReport.FinSummary();
      r := FinSummary.Dividends(conv, tree);
    }

    method GetDivPerShare(reportType: Option<string>, period: Option<string>)
      returns (r: Result<Option<seq<DividendPerShare>>>)
      requires xmlReport.Valid()
      modifies xmlReport
      ensures xmlReport.Valid() && xmlReport.Fetched(ReportsFinSummary)
      ensures r == DivPerShareFor(xmlReport.provider, conv, reportType, period)
    {
      var tree :- xmlReport.FinSummary();
      r := FinSummary.DivPerShare(conv, tree, reportType, period);
    }

    method GetRevenue(reportType: Option<string>, period: Option<string>) returns (r: Result<seq<Revenue>>)
      requires xmlReport.Valid()
      modifies xmlReport
      ensures xmlReport.Valid() && xmlReport.Fetched(ReportsFinSummary)
      ensures r == RevenuesFor(xmlReport.provider, conv, reportType, period)
    {
      var tree :- xmlReport.FinSummary();
      r := FinSummary.Revenues(conv, tree, reportType, period);
    }

    method GetEps(reportType: Option<string>, period: Option<string>) returns (r: Result<seq<EarningsPerShare>>)
      requires xmlReport.Valid()
      modifies xmlReport
      ensures xmlReport.Valid() && xmlReport.Fetched(ReportsFinSummary)
      ensures r == EpsFor(xmlReport.provider, conv, reportType, period)
    {
      var tree :- xmlReport.FinSummary();
      r := FinSummary.Eps(conv, tree, reportType, period);
    }

    method GetAnalystForecast() returns (r: Result<AnalystForecast>)
      requires xmlReport.Valid()
      modifies xmlReport
      ensures xmlReport.Valid() && xmlReport.Fetched(ReportSnapshot)
      ensures r == AnalystForecastFor(xmlReport.provider, conv)
    {
      var tree :- xmlReport.Snapshot();
      r := Snapshot.AnalystForecastOf(conv, tree);
    }

    method GetRatios() returns (r: Result<RatioSnapshot>)
      requires xmlReport.Valid()
      modifies xmlReport
      ensures xmlReport.Valid() && xmlReport.Fetched(ReportSnapshot)
      ensures r == RatiosFor(xmlReport.provider, conv)
    {
      var tree :- xmlReport.Snapshot();
      r := Snapshot.RatiosOf(conv, tree);
    }

    method GetFyEstimates() returns (r: Result<seq<ForwardYear>>)
      requires xmlReport.Valid()
      modifies xmlReport
      ensures xmlReport.Valid() && xmlReport.Fetched(RESC)
      ensures r == EstimatesFor(xmlReport.provider, conv)
    {
      var tree :- xmlReport.Resc();
      r := Estimates.EstimatesOf(conv, tree);
    }

    method GetFyActuals() returns (r: Result<seq<ForwardYear>>)
      requires xmlReport.Valid()
      modifies xmlReport
      ensures xmlReport.Valid() && xmlReport.Fetched(RESC)
      ensures r == ActualsFor(xmlReport.provider, conv)
    {
      var tree :- xmlReport.Resc();
      r := Estimates.ActualsOf(conv, tree);
    }

    method GetCompanyInfo() returns (r: Result<CompanyInfo>)
      requires xmlReport.Valid()
      modifies xmlReport
      ensures xmlReport.Valid() && xmlReport.Fetched(ReportsFinStatements)
      ensures r == CompanyInfoFor(xmlReport.provider)
    {
      var tree :- xmlReport.FinStatements();
      r := CompanyIdentity.CompanyInfoOf(tree);
    }
  }
}
