/**
 * `CompanyFundamental`: the per-company facade of fundamental.py. Each
 * property computes its value once through the parser and keeps it; a
 * property that raises keeps nothing, so the next access computes again.
 * The `..._mr` / `..._mrq` properties take element 0 of a list property.
 */
module Fundamental {
  import opened Wrappers
  import opened XmlTree
  import opened Conversions
  import opened Objects
  import opened Report
  import opened Parser
  import FinSummary

  /** `ib_async.Ticker`, the market-data snapshot of the contract. */
  type Ticker

  /** `xs[0]` on the list a call returned: that call's failure, or IndexError for an empty list. */
  function Head<T>(r: Result<seq<T>>): Result<T> {
    var xs :- r;
    if xs == [] then Err(IndexError) else Ok(xs[0])
  }

  /** A filled slot holds the value its property computes. */
  predicate Holds<T(==)>(slot: Option<T>, spec: Result<T>) {
    slot.Some? ==> spec == Ok(slot.value)
  }

  /**
   * One access to a cached property: a filled slot is returned as it is,
   * and afterwards the slot holds the result exactly when it is a value.
   */
  predicate Memo<T(==)>(before: Option<T>, after: Option<T>, r: Result<T>) {
    && (before.Some? ==> r == Ok(before.value))
    && after == (if r.Ok? then Some(r.value) else None)
  }

  class CompanyFundamental {
    const symbol: string
    const parser: XMLParser
    /** Market data; only `fundamental_ratios`, which is not part of this model, fills it. */
    var ticker: Option<Ticker>
    // One cache slot per property; `None` until the property first returns.
    var incomeAnnual: Option<seq<Statement>>
    var incomeAnnualMr: Option<Statement>
    var incomeQuarter: Option<seq<Statement>>
    var incomeMrq: Option<Statement>
    var balanceAnnual: Option<seq<Statement>>
    var balanceAnnualMr: Option<Statement>
    var balanceQuarter: Option<seq<Statement>>
    var balanceMrq: Option<Statement>
    var cashflowAnnual: Option<seq<Statement>>
    var cashflowAnnualMr: Option<Statement>
    var cashflowQuarter: Option<seq<Statement>>
    var cashflowMrq: Option<Statement>
    var ownershipReport: Option<OwnershipReport>
    var dividend: Option<Option<seq<Dividend>>>
    var divPsQ: Option<Option<seq<DividendPerShare>>>
    var divPsTtm: Option<Option<seq<DividendPerShare>>>
    var revenueTtm: Option<seq<Revenue>>
    var revenueQ: Option<seq<Revenue>>
    var revenueMrq: Option<Revenue>
    var epsTtm: Option<seq<EarningsPerShare>>
    var epsQ: Option<seq<EarningsPerShare>>
    var epsMrq: Option<EarningsPerShare>
    var analystForecast: Option<AnalystForecast>
    var ratios: Option<RatioSnapshot>
    var fyEstimates: Option<seq<ForwardYear>>
    var fyActuals: Option<seq<ForwardYear>>
    var companyInfo: Option<CompanyInfo>

    /** The provider's answer for each report of this company. */
    function Reports(): Provider {
      parser.xmlReport.provider
    }

    /** Every property slot is empty. */
    predicate Empty()
      reads this
    {
      && incomeAnnual.None?
      && incomeAnnualMr.None?
      && incomeQuarter.None?
      && incomeMrq.None?
      && balanceAnnual.None?
      && balanceAnnualMr.None?
      && balanceQuarter.None?
      && balanceMrq.None?
      && cashflowAnnual.None?
      && cashflowAnnualMr.None?
      && cashflowQuarter.None?
      && cashflowMrq.None?
      && ownershipReport.None?
      && dividend.None?
      && divPsQ.None?
      && divPsTtm.None?
      && revenueTtm.None?
      && revenueQ.None?
      && revenueMrq.None?
      && epsTtm.None?
      && epsQ.None?
      && epsMrq.None?
      && analystForecast.None?
      && ratios.None?
      && fyEstimates.None?
      && fyActuals.None?
      && companyInfo.None?
    }

    /** The report cache is consistent. */
    ghost predicate CacheValid()
      reads parser.xmlReport
    {
      parser.xmlReport.Valid()
    }

    /**
     * The class invariant. Each property needs only the cache and its own
     * slot(s), and changes no other slot, so it keeps the whole of it.
     */
    ghost predicate Valid()
      reads this, parser.xmlReport
    {
      && CacheValid()
      && IncomeAnnualHolds()
      && IncomeAnnualMrHolds()
      && IncomeQuarterHolds()
      && IncomeMrqHolds()
      && BalanceAnnualHolds()
      && BalanceAnnualMrHolds()
      && BalanceQuarterHolds()
      && BalanceMrqHolds()
      && CashflowAnnualHolds()
      && CashflowAnnualMrHolds()
      && CashflowQuarterHolds()
      && CashflowMrqHolds()
      && OwnershipReportHolds()
      && DividendHolds()
      && DivPsQHolds()
      && DivPsTtmHolds()
      && RevenueTtmHolds()
      && RevenueQHolds()
      && RevenueMrqHolds()
      && EpsTtmHolds()
      && EpsQHolds()
      && EpsMrqHolds()
      && AnalystForecastHolds()
      && RatiosHolds()
      && FyEstimatesHolds()
      && FyActualsHolds()
      && CompanyInfoHolds()
    }

    /** The `incomeAnnual` slot, when filled, holds what its property computes for this provider. */
    predicate IncomeAnnualHolds()
      reads this`incomeAnnual
    {
      Holds(incomeAnnual, FinStatementFor(Reports(), parser.conv, INC, annual, None))
    }

    predicate IncomeAnnualMrHolds()
      reads this`incomeAnnualMr
    {
      Holds(incomeAnnualMr, Head(FinStatementFor(Reports(), parser.conv, INC, annual, None)))
    }

    predicate IncomeQuarterHolds()
      reads this`incomeQuarter
    {
      Holds(incomeQuarter, FinStatementFor(Reports(), parser.conv, INC, quarter, None))
    }

    predicate IncomeMrqHolds()
      reads this`incomeMrq
    {
      Holds(incomeMrq, Head(FinStatementFor(Reports(), parser.conv, INC, quarter, None)))
    }

    predicate BalanceAnnualHolds()
      reads this`balanceAnnual
    {
      Holds(balanceAnnual, FinStatementFor(Reports(), parser.conv, BAL, annual, None))
    }

    predicate BalanceAnnualMrHolds()
      reads this`balanceAnnualMr
    {
      Holds(balanceAnnualMr, Head(FinStatementFor(Reports(), parser.conv, BAL, annual, None)))
    }

    predicate BalanceQuarterHolds()
      reads this`balanceQuarter
    {
      Holds(balanceQuarter, FinStatementFor(Reports(), parser.conv, BAL, quarter, None))
    }

    predicate BalanceMrqHolds()
      reads this`balanceMrq
    {
      Holds(balanceMrq, Head(FinStatementFor(Reports(), parser.conv, BAL, quarter, None)))
    }

    predicate CashflowAnnualHolds()
      reads this`cashflowAnnual
    {
      Holds(cashflowAnnual, FinStatementFor(Reports(), parser.conv, CAS, annual, None))
    }

    predicate CashflowAnnualMrHolds()
      reads this`cashflowAnnualMr
    {
      Holds(cashflowAnnualMr, Head(FinStatementFor(Reports(), parser.conv, CAS, annual, None)))
    }

    predicate CashflowQuarterHolds()
      reads this`cashflowQuarter
    {
      Holds(cashflowQuarter, FinStatementFor(Reports(), parser.conv, CAS, quarter, None))
    }

    predicate CashflowMrqHolds()
      reads this`cashflowMrq
    {
      Holds(cashflowMrq, Head(FinStatementFor(Reports(), parser.conv, CAS, quarter, None)))
    }

    predicate OwnershipReportHolds()
      reads this`ownershipReport
    {
      Holds(ownershipReport, OwnershipReportFor(Reports(), parser.conv))
    }

    predicate DividendHolds()
      reads this`dividend
    {
      Holds(dividend, DividendsFor(Reports(), parser.conv))
    }

    predicate DivPsQHolds()
      reads this`divPsQ
    {
      Holds(divPsQ, DivPerShareFor(Reports(), parser.conv, Some("R"), Some("3M")))
    }

    predicate DivPsTtmHolds()
      reads this`divPsTtm
    {
      Holds(divPsTtm, DivPerShareFor(Reports(), parser.conv, Some("TTM"), None))
    }

    predicate RevenueTtmHolds()
      reads this`revenueTtm
    {
      Holds(revenueTtm, RevenuesFor(Reports(), parser.conv, Some("TTM"), None))
    }

    predicate RevenueQHolds()
      reads this`revenueQ
    {
      Holds(revenueQ, RevenuesFor(Reports(), parser.conv, Some("R"), Some("3M")))
    }

    predicate RevenueMrqHolds()
      reads this`revenueMrq
    {
      Holds(revenueMrq, Head(RevenuesFor(Reports(), parser.conv, Some("TTM"), None)))
    }

    predicate EpsTtmHolds()
      reads this`epsTtm
    {
      Holds(epsTtm, EpsFor(Reports(), parser.conv, Some("TTM"), None))
    }

    predicate EpsQHolds()
      reads this`epsQ
    {
      Holds(epsQ, EpsFor(Reports(), parser.conv, Some("R"), Some("3M")))
    }

    predicate EpsMrqHolds()
      reads this`epsMrq
    {
      Holds(epsMrq, Head(EpsFor(Reports(), parser.conv, Some("TTM"), None)))
    }

    predicate AnalystForecastHolds()
      reads this`analystForecast
    {
      Holds(analystForecast, AnalystForecastFor(Reports(), parser.conv))
    }

    predicate RatiosHolds()
      reads this`ratios
    {
      Holds(ratios, RatiosFor(Reports(), parser.conv))
    }

    predicate FyEstimatesHolds()
      reads this`fyEstimates
    {
      Holds(fyEstimates, EstimatesFor(Reports(), parser.conv))
    }

    predicate FyActualsHolds()
      reads this`fyActuals
    {
      Holds(fyActuals, ActualsFor(Reports(), parser.conv))
    }

    predicate CompanyInfoHolds()
      reads this`companyInfo
    {
      Holds(companyInfo, CompanyInfoFor(Reports()))
    }

    /** The report cache was left alone on a hit, and accessed once on a miss. */
    twostate predicate Fetch(hit: bool, kind: ReportType)
      reads parser.xmlReport
    {
      if hit then unchanged(parser.xmlReport) else parser.xmlReport.Fetched(kind)
    }

    /** `CompanyFundamental(symbol, ib)`: a parser over a fresh report cache; nothing is requested. */
    constructor (symbol: string, provider: Provider, conv: Conv)
      ensures this.symbol == symbol && ticker.None? && Empty()
      ensures fresh(parser) && fresh(parser.xmlReport)
      ensures Reports() == provider && parser.conv == conv && parser.xmlReport.requests == []
      ensures Valid()
    {
      this.symbol := symbol;
      ticker := None;
      incomeAnnual := None;
      incomeAnnualMr := None;
      incomeQuarter := None;
      incomeMrq := None;
      balanceAnnual := None;
      balanceAnnualMr := None;
      balanceQuarter := None;
      balanceMrq := None;
      cashflowAnnual := None;
      cashflowAnnualMr := None;
      cashflowQuarter := None;
      cashflowMrq := None;
      ownershipReport := None;
      dividend := None;
      divPsQ := None;
      divPsTtm := None;
      revenueTtm := None;
      revenueQ := None;
      revenueMrq := None;
      epsTtm := None;
      epsQ := None;
      epsMrq := None;
      analystForecast := None;
      ratios := None;
      fyEstimates := None;
      fyActuals := None;
      companyInfo := None;
      parser := new XMLParser(provider, conv);
    }

    method IncomeAnnual() returns (r: Result<seq<Statement>>)
      requires CacheValid() && IncomeAnnualHolds()
      modifies this`incomeAnnual, parser.xmlReport
      ensures CacheValid() && IncomeAnnualHolds()
      ensures r == FinStatementFor(Reports(), parser.conv, INC, annual, None)
      ensures Memo(old(incomeAnnual), incomeAnnual, r)
      ensures Fetch(old(incomeAnnual).Some?, ReportsFinStatements)
    {
      if incomeAnnual.Some? {
        return Ok(incomeAnnual.value);
      }
      r := parser.GetFinStatement(INC, annual, None);
      if r.Ok? {
        incomeAnnual := Some(r.value);
      }
    }

    method IncomeAnnualMr() returns (r: Result<Statement>)
      requires CacheValid() && IncomeAnnualHolds() && IncomeAnnualMrHolds()
      modifies this`incomeAnnualMr, this`incomeAnnual, parser.xmlReport
      ensures CacheValid() && IncomeAnnualHolds() && IncomeAnnualMrHolds()
      ensures r == Head(FinStatementFor(Reports(), parser.conv, INC, annual, None))
      ensures Memo(old(incomeAnnualMr), incomeAnnualMr, r)
      ensures old(incomeAnnualMr).Some? ==> unchanged(this, parser.xmlReport)
      ensures old(incomeAnnualMr).None? ==> Memo(old(incomeAnnual), incomeAnnual, FinStatementFor(Reports(), parser.conv, INC, annual, None))
      ensures old(incomeAnnualMr).None? ==> Fetch(old(incomeAnnual).Some?, ReportsFinStatements)
    {
      if incomeAnnualMr.Some? {
        return Ok(incomeAnnualMr.value);
      }
      var all :- IncomeAnnual();
      if all == [] {
        return Err(IndexError);
      }
      r := Ok(all[0]);
      incomeAnnualMr := Some(all[0]);
    }

    method IncomeQuarter() returns (r: Result<seq<Statement>>)
      requires CacheValid() && IncomeQuarterHolds()
      modifies this`incomeQuarter, parser.xmlReport
      ensures CacheValid() && IncomeQuarterHolds()
      ensures r == FinStatementFor(Reports(), parser.conv, INC, quarter, None)
      ensures Memo(old(incomeQuarter), incomeQuarter, r)
      ensures Fetch(old(incomeQuarter).Some?, ReportsFinStatements)
    {
      if incomeQuarter.Some? {
        return Ok(incomeQuarter.value);
      }
      r := parser.GetFinStatement(INC, quarter, None);
      if r.Ok? {
        incomeQuarter := Some(r.value);
      }
    }

    method IncomeMrq() returns (r: Result<Statement>)
      requires CacheValid() && IncomeQuarterHolds() && IncomeMrqHolds()
      modifies this`incomeMrq, this`incomeQuarter, parser.xmlReport
      ensures CacheValid() && IncomeQuarterHolds() && IncomeMrqHolds()
      ensures r == Head(FinStatementFor(Reports(), parser.conv, INC, quarter, None))
      ensures Memo(old(incomeMrq), incomeMrq, r)
      ensures old(incomeMrq).Some? ==> unchanged(this, parser.xmlReport)
      ensures old(incomeMrq).None? ==> Memo(old(incomeQuarter), incomeQuarter, FinStatementFor(Reports(), parser.conv, INC, quarter, None))
      ensures old(incomeMrq).None? ==> Fetch(old(incomeQuarter).Some?, ReportsFinStatements)
    {
      if incomeMrq.Some? {
        return Ok(incomeMrq.value);
      }
      var all :- IncomeQuarter();
      if all == [] {
        return Err(IndexError);
      }
      r := Ok(all[0]);
      incomeMrq := Some(all[0]);
    }

    method BalanceAnnual() returns (r: Result<seq<Statement>>)
      requires CacheValid() && BalanceAnnualHolds()
      modifies this`balanceAnnual, parser.xmlReport
      ensures CacheValid() && BalanceAnnualHolds()
      ensures r == FinStatementFor(Reports(), parser.conv, BAL, annual, None)
      ensures Memo(old(balanceAnnual), balanceAnnual, r)
      ensures Fetch(old(balanceAnnual).Some?, ReportsFinStatements)
    {
      if balanceAnnual.Some? {
        return Ok(balanceAnnual.value);
      }
      r := parser.GetFinStatement(BAL, annual, None);
      if r.Ok? {
        balanceAnnual := Some(r.value);
      }
    }

    method BalanceAnnualMr() returns (r: Result<Statement>)
      requires CacheValid() && BalanceAnnualHolds() && BalanceAnnualMrHolds()
      modifies this`balanceAnnualMr, this`balanceAnnual, parser.xmlReport
      ensures CacheValid() && BalanceAnnualHolds() && BalanceAnnualMrHolds()
      ensures r == Head(FinStatementFor(Reports(), parser.conv, BAL, annual, None))
      ensures Memo(old(balanceAnnualMr), balanceAnnualMr, r)
      ensures old(balanceAnnualMr).Some? ==> unchanged(this, parser.xmlReport)
      ensures old(balanceAnnualMr).None? ==> Memo(old(balanceAnnual), balanceAnnual, FinStatementFor(Reports(), parser.conv, BAL, annual, None))
      ensures old(balanceAnnualMr).None? ==> Fetch(old(balanceAnnual).Some?, ReportsFinStatements)
    {
      if balanceAnnualMr.Some? {
        return Ok(balanceAnnualMr.value);
      }
      var all :- BalanceAnnual();
      if all == [] {
        return Err(IndexError);
      }
      r := Ok(all[0]);
      balanceAnnualMr := Some(all[0]);
    }

    method BalanceQuarter() returns (r: Result<seq<Statement>>)
      requires CacheValid() && BalanceQuarterHolds()
      modifies this`balanceQuarter, parser.xmlReport
      ensures CacheValid() && BalanceQuarterHolds()
      ensures r == FinStatementFor(Reports(), parser.conv, BAL, quarter, None)
      ensures Memo(old(balanceQuarter), balanceQuarter, r)
      ensures Fetch(old(balanceQuarter).Some?, ReportsFinStatements)
    {
      if balanceQuarter.Some? {
        return Ok(balanceQuarter.value);
      }
      r := parser.GetFinStatement(BAL, quarter, None);
      if r.Ok? {
        balanceQuarter := Some(r.value);
      }
    }

    method BalanceMrq() returns (r: Result<Statement>)
      requires CacheValid() && BalanceQuarterHolds() && BalanceMrqHolds()
      modifies this`balanceMrq, this`balanceQuarter, parser.xmlReport
      ensures CacheValid() && BalanceQuarterHolds() && BalanceMrqHolds()
      ensures r == Head(FinStatementFor(Reports(), parser.conv, BAL, quarter, None))
      ensures Memo(old(balanceMrq), balanceMrq, r)
      ensures old(balanceMrq).Some? ==> unchanged(this, parser.xmlReport)
      ensures old(balanceMrq).None? ==> Memo(old(balanceQuarter), balanceQuarter, FinStatementFor(Reports(), parser.conv, BAL, quarter, None))
      ensures old(balanceMrq).None? ==> Fetch(old(balanceQuarter).Some?, ReportsFinStatements)
    {
      if balanceMrq.Some? {
        return Ok(balanceMrq.value);
      }
      var all :- BalanceQuarter();
      if all == [] {
        return Err(IndexError);
      }
      r := Ok(all[0]);
      balanceMrq := Some(all[0]);
    }

    method CashflowAnnual() returns (r: Result<seq<Statement>>)
      requires CacheValid() && CashflowAnnualHolds()
      modifies this`cashflowAnnual, parser.xmlReport
      ensures CacheValid() && CashflowAnnualHolds()
      ensures r == FinStatementFor(Reports(), parser.conv, CAS, annual, None)
      ensures Memo(old(cashflowAnnual), cashflowAnnual, r)
      ensures Fetch(old(cashflowAnnual).Some?, ReportsFinStatements)
    {
      if cashflowAnnual.Some? {
        return Ok(cashflowAnnual.value);
      }
      r := parser.GetFinStatement(CAS, annual, None);
      if r.Ok? {
        cashflowAnnual := Some(r.value);
      }
    }

    method CashflowAnnualMr() returns (r: Result<Statement>)
      requires CacheValid() && CashflowAnnualHolds() && CashflowAnnualMrHolds()
      modifies this`cashflowAnnualMr, this`cashflowAnnual, parser.xmlReport
      ensures CacheValid() && CashflowAnnualHolds() && CashflowAnnualMrHolds()
      ensures r == Head(FinStatementFor(Reports(), parser.conv, CAS, annual, None))
      ensures Memo(old(cashflowAnnualMr), cashflowAnnualMr, r)
      ensures old(cashflowAnnualMr).Some? ==> unchanged(this, parser.xmlReport)
      ensures old(cashflowAnnualMr).None? ==> Memo(old(cashflowAnnual), cashflowAnnual, FinStatementFor(Reports(), parser.conv, CAS, annual, None))
      ensures old(cashflowAnnualMr).None? ==> Fetch(old(cashflowAnnual).Some?, ReportsFinStatements)
    {
      if cashflowAnnualMr.Some? {
        return Ok(cashflowAnnualMr.value);
      }
      var all :- CashflowAnnual();
      if all == [] {
        return Err(IndexError);
      }
      r := Ok(all[0]);
      cashflowAnnualMr := Some(all[0]);
    }

    method CashflowQuarter() returns (r: Result<seq<Statement>>)
      requires CacheValid() && CashflowQuarterHolds()
      modifies this`cashflowQuarter, parser.xmlReport
      ensures CacheValid() && CashflowQuarterHolds()
      ensures r == FinStatementFor(Reports(), parser.conv, CAS, quarter, None)
      ensures Memo(old(cashflowQuarter), cashflowQuarter, r)
      ensures Fetch(old(cashflowQuarter).Some?, ReportsFinStatements)
    {
      if cashflowQuarter.Some? {
        return Ok(cashflowQuarter.value);
      }
      r := parser.GetFinStatement(CAS, quarter, None);
      if r.Ok? {
        cashflowQuarter := Some(r.value);
      }
    }

    method CashflowMrq() returns (r: Result<Statement>)
      requires CacheValid() && CashflowQuarterHolds() && CashflowMrqHolds()
      modifies this`cashflowMrq, this`cashflowQuarter, parser.xmlReport
      ensures CacheValid() && CashflowQuarterHolds() && CashflowMrqHolds()
      ensures r == Head(FinStatementFor(Reports(), parser.conv, CAS, quarter, None))
      ensures Memo(old(cashflowMrq), cashflowMrq, r)
      ensures old(cashflowMrq).Some? ==> unchanged(this, parser.xmlReport)
      ensures old(cashflowMrq).None? ==> Memo(old(cashflowQuarter), cashflowQuarter, FinStatementFor(Reports(), parser.conv, CAS, quarter, None))
      ensures old(cashflowMrq).None? ==> Fetch(old(cashflowQuarter).Some?, ReportsFinStatements)
    {
      if cashflowMrq.Some? {
        return Ok(cashflowMrq.value);
      }
      var all :- CashflowQuarter();
      if all == [] {
        return Err(IndexError);
      }
      r := Ok(all[0]);
      cashflowMrq := Some(all[0]);
    }

    method OwnershipReport() returns (r: Result<OwnershipReport>)
      requires CacheValid() && OwnershipReportHolds()
      modifies this`ownershipReport, parser.xmlReport
      ensures CacheValid() && OwnershipReportHolds()
      ensures r == OwnershipReportFor(Reports(), parser.conv)
      ensures Memo(old(ownershipReport), ownershipReport, r)
      ensures Fetch(old(ownershipReport).Some?, ReportsOwnership)
    {
      if ownershipReport.Some? {
        return Ok(ownershipReport.value);
      }
      r := parser.GetOwnershipReport();
      if r.Ok? {
        ownershipReport := Some(r.value);
      }
    }

    method Dividend() returns (r: Result<Option<seq<Dividend>>>)
      requires CacheValid() && DividendHolds()
      modifies this`dividend, parser.xmlReport
      ensures CacheValid() && DividendHolds()
      ensures r == DividendsFor(Reports(), parser.conv)
      ensures Memo(old(dividend), dividend, r)
      ensures Fetch(old(dividend).Some?, ReportsFinSummary)
    {
      if dividend.Some? {
        return Ok(dividend.value);
      }
      r := parser.GetDividend();
      if r.Ok? {
        dividend := Some(r.value);
      }
    }

    method DivPsQ() returns (r: Result<Option<seq<DividendPerShare>>>)
      requires CacheValid() && DivPsQHolds()
      modifies this`divPsQ, parser.xmlReport
      ensures CacheValid() && DivPsQHolds()
      ensures r == DivPerShareFor(Reports(), parser.conv, Some("R"), Some("3M"))
      ensures Memo(old(divPsQ), divPsQ, r)
      ensures Fetch(old(divPsQ).Some?, ReportsFinSummary)
    {
      if divPsQ.Some? {
        return Ok(divPsQ.value);
      }
      r := parser.GetDivPerShare(Some("R"), Some("3M"));
      if r.Ok? {
        divPsQ := Some(r.value);
      }
    }

    method DivPsTtm() returns (r: Result<Option<seq<DividendPerShare>>>)
      requires CacheValid() && DivPsTtmHolds()
      modifies this`divPsTtm, parser.xmlReport
      ensures CacheValid() && DivPsTtmHolds()
      ensures r == DivPerShareFor(Reports(), parser.conv, Some("TTM"), None)
      ensures Memo(old(divPsTtm), divPsTtm, r)
      ensures Fetch(old(divPsTtm).Some?, ReportsFinSummary)
    {
      if divPsTtm.Some? {
        return Ok(divPsTtm.value);
      }
      r := parser.GetDivPerShare(Some("TTM"), None);
      if r.Ok? {
        divPsTtm := Some(r.value);
      }
    }

    method RevenueTtm() returns (r: Result<seq<Revenue>>)
      requires CacheValid() && RevenueTtmHolds()
      modifies this`revenueTtm, parser.xmlReport
      ensures CacheValid() && RevenueTtmHolds()
      ensures r == RevenuesFor(Reports(), parser.conv, Some("TTM"), None)
      ensures Memo(old(revenueTtm), revenueTtm, r)
      ensures Fetch(old(revenueTtm).Some?, ReportsFinSummary)
    {
      if revenueTtm.Some? {
        return Ok(revenueTtm.value);
      }
      r := parser.GetRevenue(Some("TTM"), None);
      if r.Ok? {
        revenueTtm := Some(r.value);
      }
    }

    method RevenueQ() returns (r: Result<seq<Revenue>>)
      requires CacheValid() && RevenueQHolds()
      modifies this`revenueQ, parser.xmlReport
      ensures CacheValid() && RevenueQHolds()
      ensures r == RevenuesFor(Reports(), parser.conv, Some("R"), Some("3M"))
      ensures Memo(old(revenueQ), revenueQ, r)
      ensures Fetch(old(revenueQ).Some?, ReportsFinSummary)
    {
      if revenueQ.Some? {
        return Ok(revenueQ.value);
      }
      r := parser.GetRevenue(Some("R"), Some("3M"));
      if r.Ok? {
        revenueQ := Some(r.value);
      }
    }

    method RevenueMrq() returns (r: Result<Revenue>)
      requires CacheValid() && RevenueTtmHolds() && RevenueMrqHolds()
      modifies this`revenueMrq, this`revenueTtm, parser.xmlReport
      ensures CacheValid() && RevenueTtmHolds() && RevenueMrqHolds()
      ensures r == Head(RevenuesFor(Reports(), parser.conv, Some("TTM"), None))
      ensures Memo(old(revenueMrq), revenueMrq, r)
      ensures old(revenueMrq).Some? ==> unchanged(this, parser.xmlReport)
      ensures old(revenueMrq).None? ==> Memo(old(revenueTtm), revenueTtm, RevenuesFor(Reports(), parser.conv, Some("TTM"), None))
      ensures old(revenueMrq).None? ==> Fetch(old(revenueTtm).Some?, ReportsFinSummary)
    {
      if revenueMrq.Some? {
        return Ok(revenueMrq.value);
      }
      var all :- RevenueTtm();
      if all == [] {
        return Err(IndexError);
      }
      r := Ok(all[0]);
      revenueMrq := Some(all[0]);
    }

    method EpsTtm() returns (r: Result<seq<EarningsPerShare>>)
      requires CacheValid() && EpsTtmHolds()
      modifies this`epsTtm, parser.xmlReport
      ensures CacheValid() && EpsTtmHolds()
      ensures r == EpsFor(Reports(), parser.conv, Some("TTM"), None)
      ensures Memo(old(epsTtm), epsTtm, r)
      ensures Fetch(old(epsTtm).Some?, ReportsFinSummary)
    {
      if epsTtm.Some? {
        return Ok(epsTtm.value);
      }
      r := parser.GetEps(Some("TTM"), None);
      if r.Ok? {
        epsTtm := Some(r.value);
      }
    }

    method EpsQ() returns (r: Result<seq<EarningsPerShare>>)
      requires CacheValid() && EpsQHolds()
      modifies this`epsQ, parser.xmlReport
      ensures CacheValid() && EpsQHolds()
      ensures r == EpsFor(Reports(), parser.conv, Some("R"), Some("3M"))
      ensures Memo(old(epsQ), epsQ, r)
      ensures Fetch(old(epsQ).Some?, ReportsFinSummary)
    {
      if epsQ.Some? {
        return Ok(epsQ.value);
      }
      r := parser.GetEps(Some("R"), Some("3M"));
      if r.Ok? {
        epsQ := Some(r.value);
      }
    }

    method EpsMrq() returns (r: Result<EarningsPerShare>)
      requires CacheValid() && EpsTtmHolds() && EpsMrqHolds()
      modifies this`epsMrq, this`epsTtm, parser.xmlReport
      ensures CacheValid() && EpsTtmHolds() && EpsMrqHolds()
      ensures r == Head(EpsFor(Reports(), parser.conv, Some("TTM"), None))
      ensures Memo(old(epsMrq), epsMrq, r)
      ensures old(epsMrq).Some? ==> unchanged(this, parser.xmlReport)
      ensures old(epsMrq).None? ==> Memo(old(epsTtm), epsTtm, EpsFor(Reports(), parser.conv, Some("TTM"), None))
      ensures old(epsMrq).None? ==> Fetch(old(epsTtm).Some?, ReportsFinSummary)
    {
      if epsMrq.Some? {
        return Ok(epsMrq.value);
      }
      var all :- EpsTtm();
      if all == [] {
        return Err(IndexError);
      }
      r := Ok(all[0]);
      epsMrq := Some(all[0]);
    }

    method AnalystForecast() returns (r: Result<AnalystForecast>)
      requires CacheValid() && AnalystForecastHolds()
      modifies this`analystForecast, parser.xmlReport
      ensures CacheValid() && AnalystForecastHolds()
      ensures r == AnalystForecastFor(Reports(), parser.conv)
      ensures Memo(old(analystForecast), analystForecast, r)
      ensures Fetch(old(analystForecast).Some?, ReportSnapshot)
    {
      if analystForecast.Some? {
        return Ok(analystForecast.value);
      }
      r := parser.GetAnalystForecast();
      if r.Ok? {
        analystForecast := Some(r.value);
      }
    }

    method Ratios() returns (r: Result<RatioSnapshot>)
      requires CacheValid() && RatiosHolds()
      modifies this`ratios, parser.xmlReport
      ensures CacheValid() && RatiosHolds()
      ensures r == RatiosFor(Reports(), parser.conv)
      ensures Memo(old(ratios), ratios, r)
      ensures Fetch(old(ratios).Some?, ReportSnapshot)
    {
      if ratios.Some? {
        return Ok(ratios.value);
      }
      r := parser.GetRatios();
      if r.Ok? {
        ratios := Some(r.value);
      }
    }

    method FyEstimates() returns (r: Result<seq<ForwardYear>>)
      requires CacheValid() && FyEstimatesHolds()
      modifies this`fyEstimates, parser.xmlReport
      ensures CacheValid() && FyEstimatesHolds()
      ensures r == EstimatesFor(Reports(), parser.conv)
      ensures Memo(old(fyEstimates), fyEstimates, r)
      ensures Fetch(old(fyEstimates).Some?, RESC)
    {
      if fyEstimates.Some? {
        return Ok(fyEstimates.value);
      }
      r := parser.GetFyEstimates();
      if r.Ok? {
        fyEstimates := Some(r.value);
      }
    }

    method FyActuals() returns (r: Result<seq<ForwardYear>>)
      requires CacheValid() && FyActualsHolds()
      modifies this`fyActuals, parser.xmlReport
      ensures CacheValid() && FyActualsHolds()
      ensures r == ActualsFor(Reports(), parser.conv)
      ensures Memo(old(fyActuals), fyActuals, r)
      ensures Fetch(old(fyActuals).Some?, RESC)
    {
      if fyActuals.Some? {
        return Ok(fyActuals.value);
      }
      r := parser.GetFyActuals();
      if r.Ok? {
        fyActuals := Some(r.value);
      }
    }

    method CompanyInfo() returns (r: Result<CompanyInfo>)
      requires CacheValid() && CompanyInfoHolds()
      modifies this`companyInfo, parser.xmlReport
      ensures CacheValid() && CompanyInfoHolds()
      ensures r == CompanyInfoFor(Reports())
      ensures Memo(old(companyInfo), companyInfo, r)
      ensures Fetch(old(companyInfo).Some?, ReportsFinStatements)
    {
      if companyInfo.Some? {
        return Ok(companyInfo.value);
      }
      r := parser.GetCompanyInfo();
      if r.Ok? {
        companyInfo := Some(r.value);
      }
    }
  }

  /** A cached most-recent value is element 0 of the cached list it was taken from. */
  lemma MostRecentIsFirst<T>(list: Option<seq<T>>, one: Option<T>, spec: Result<seq<T>>)
    requires Holds(list, spec) && Holds(one, Head(spec))
    requires list.Some? && one.Some?
    ensures list.value != [] && one.value == list.value[0]
  {
  }

  /** However many properties a company reads, each report is requested at most once. */
  lemma OneRequestPerReport(cf: CompanyFundamental, kind: ReportType)
    requires cf.CacheValid() && cf.Reports()(kind).Some?
    ensures Requests(cf.parser.xmlReport.requests, kind) <= 1
  {
    AtMostOnce(cf.parser.xmlReport, kind);
  }

  /** `revenue_mrq` is taken from the trailing-twelve-month list, so it is a TTM figure. */
  lemma RevenueMrqIsTtm(cf: CompanyFundamental)
    requires cf.RevenueMrqHolds() && cf.revenueMrq.Some?
    ensures cf.revenueMrq.value.reportType == "TTM"
  {
    var tree := cf.Reports()(ReportsFinSummary).value;
    FinSummary.RevenuesMatch(cf.parser.conv, tree, Some("TTM"), None, 0);
  }

  /** `eps_mrq` is taken from the trailing-twelve-month list, so it is a TTM figure. */
  lemma EpsMrqIsTtm(cf: CompanyFundamental)
    requires cf.EpsMrqHolds() && cf.epsMrq.Some?
    ensures cf.epsMrq.value.reportType == "TTM"
  {
    var tree := cf.Reports()(ReportsFinSummary).value;
    FinSummary.EpsMatch(cf.parser.conv, tree, Some("TTM"), None, 0);
  }

  /** Every cached quarterly revenue is a restated ("R") three-month figure. */
  lemma QuarterlyRevenue(cf: CompanyFundamental, k: nat)
    requires cf.RevenueQHolds() && cf.revenueQ.Some? && k < |cf.revenueQ.value|
    ensures cf.revenueQ.value[k].reportType == "R" && cf.revenueQ.value[k].period == "3M"
  {
    var tree := cf.Reports()(ReportsFinSummary).value;
    FinSummary.RevenuesMatch(cf.parser.conv, tree, Some("R"), Some("3M"), k);
  }

  /** Every cached quarterly EPS is a restated ("R") three-month figure. */
  lemma QuarterlyEps(cf: CompanyFundamental, k: nat)
    requires cf.EpsQHolds() && cf.epsQ.Some? && k < |cf.epsQ.value|
    ensures cf.epsQ.value[k].reportType == "R" && cf.epsQ.value[k].period == "3M"
  {
    var tree := cf.Reports()(ReportsFinSummary).value;
    FinSummary.EpsMatch(cf.parser.conv, tree, Some("R"), Some("3M"), k);
  }

  /** Every cached quarterly dividend per share is a restated ("R") three-month figure. */
  lemma QuarterlyDivPerShare(cf: CompanyFundamental, k: nat)
    requires cf.DivPsQHolds() && cf.divPsQ.Some? && cf.divPsQ.value.Some? && k < |cf.divPsQ.value.value|
    ensures cf.divPsQ.value.value[k].reportType == "R" && cf.divPsQ.value.value[k].period == "3M"
  {
    var tree := cf.Reports()(ReportsFinSummary).value;
    FinSummary.DivPerShareMatch(cf.parser.conv, tree, Some("R"), Some("3M"), k);
  }
}
