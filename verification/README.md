# ib_fundamental — a Dafny model of the XML extraction layer

This project models the part of `ib_fundamental` that turns Interactive
Brokers fundamental-data reports into typed records. It is written in Dafny
and its properties are proved.

- **Reports.** A report is an already-parsed XML element tree,
  `XmlTree.Node(tag, attrib, text, children)`. Only the query shapes the code
  uses are modelled:
  - a direct-child step `./X`;
  - a descendant step `.//X`;
  - the attribute test `[@A="v"]`;
  - `findall("./")`;
  - `Element.iter(tag)`.
- **Exceptions.** Python's exceptions (`KeyError`, `AttributeError`,
  `IndexError`, `ValueError`, `TypeError`) are the `Err` cases of a
  `Result`. A function that raises part-way returns the first failure that
  the Python evaluation order would reach.
- **Conversions.** `float()`, `int()`, `date.fromisoformat` and
  `pd.to_datetime` are partial functions, passed in as the `Conv` record.
  Their result types, `Float` and `Date`, are abstract.
- **Modules:**
  - `Objects`: the record dataclasses and their keyword constructors, the
    literal vocabularies and `statement_map`.
  - `Utils`: `camel_to_snake`, written out as the regular expression at
    utils.py:13 describes it.
  - `FinStatements`, `CompanyIdentity`, `FinSummary`, `Snapshot`,
    `Estimates` and `Ownership`: the twelve extractors of `XMLParser`, each
    as a function of a tree. `get_fin_statement` and `get_ownership_report`
    work by loops that append to a list or fill a dictionary. They are
    therefore also methods with loop invariants, proved equal to those
    functions.
  - `Report`: the `XMLReport` cache, a class with six `Option` slots.
    - A ghost log records every request it sends.
    - The IB client is reduced to the provider's answer for each report
      kind; an empty answer makes `ib_req_fund` raise `ValueError`.
  - `Parser`: the `XMLParser` class. Each getter reads its report through
    the cache and applies its extractor.
  - `Fundamental`: the `CompanyFundamental` facade, a class with one
    `Option` slot per memoised property.
    - A property returns its slot when the slot is filled.
    - Otherwise it asks the parser and stores the result only when the call
      returns.
- **Specifications.** Every `XMLParser` and `CompanyFundamental` method is
  specified by a `...For` function. The loop methods `GetFinStatement`,
  `OwnerDict` and `GetOwnershipReport` are proved equal to `FinStatement`,
  `OwnerFields` and `OwnershipReportOf`, and the `XMLReport` methods are
  specified by the two-state predicate `Served`. The lemmas next to each
  function say what the source promises about it.

## Model

| member | source | states |
|---|---|---|
| `Utils.Lower` | ib_fundamental/utils.py:41 | `str.lower()` on ASCII: same length, no upper-case letter left, each upper-case letter replaced in place by its lower-case letter and every other character kept |
| `Utils.CamelToSnake` | ib_fundamental/utils.py:38-41 | the result contains no upper-case ASCII letter |
| `Utils.CamelToSnakeShape` | ib_fundamental/utils.py:13 | exactly one "_" is inserted before each boundary of the pattern (after a lower-case letter and before an upper-case one, or after an upper-case letter and before an upper-case letter followed by a lower-case one); every input character keeps its place, lower-cased; the length grows by the number of boundaries |
| `Utils.CamelToSnakeNoUpper` | ib_fundamental/utils.py:38-41 | a string without upper-case letters comes back unchanged |
| `Utils.CamelToSnakeIdempotent` | ib_fundamental/utils.py:38-41 | applying the conversion twice gives the same as applying it once |
| `Utils.CamelToSnakeAcronym` | ib_fundamental/utils.py:13 | in "ProjLTGrowthRate" the boundaries are exactly positions 4, 6 and 12, so the acronym "LT" stays together |
| `Utils.CamelToSnakeAcronymResult` | ib_fundamental/utils.py:38-41 | `camel_to_snake("ProjLTGrowthRate")` is "proj_lt_growth_rate", the field name the analyst-forecast record declares |
| `Utils.UnderscoredSegment` | ib_fundamental/utils.py:13 | a stretch with no boundary after its first character is copied as it is, behind one "_" exactly when its first position is a boundary |
| `Objects.StatementMapBijective` | ib_fundamental/objects.py:174-178 | `statement_map` is one-to-one and onto: INC, BAL and CAS go to the income, balance-sheet and cash-flow classes |
| `Objects.BuildStatementSpec` | ib_fundamental/objects.py:28-159 | the statement constructor succeeds exactly when every key is a line item of the class, or is `period_number` on an annual record (TypeError otherwise). It copies the metadata, and line items not given read `None`. A quarter record keeps all the line items, takes its period number from the metadata and leaves the 10-K date empty. An annual record takes a `period_number` item as its period number and leaves the 10-Q date empty |
| `Objects.BuildRevenueAsDeclaredFails` | ib_fundamental/objects.py:205-211 | the declared three-field `Revenue` rejects the `period` keyword with TypeError |
| `Objects.BuildEpsAsDeclaredFails` | ib_fundamental/objects.py:214-220 | the declared three-field `EarningsPerShare` rejects the `period` keyword with TypeError |
| `Objects.BuildAnalystForecastSpec` | ib_fundamental/objects.py:223-236 | `AnalystForecast(**d)` succeeds exactly when `d` has the ten declared fields, and keeps them; TypeError otherwise |
| `Objects.BuildRatioSnapshotSpec` | ib_fundamental/objects.py:239-264 | `RatioSnapshot(**d)` succeeds exactly when `d` has the twenty-two declared fields, and keeps them; TypeError otherwise |
| `Objects.BuildOwnershipDetailsSpec` | ib_fundamental/objects.py:306-315 | `OwnershipDetails(**d)` succeeds exactly when the five required fields are present and no unknown one is; it keeps every given value and defaults `currency` to "" |
| `FinStatements.GetFinStatement` | ib_fundamental/xml_parser.py:71-152 | the loop that appends one line-item dictionary per period returns what `FinStatement` specifies |
| `FinStatements.FinStatementLength` | ib_fundamental/xml_parser.py:139-152 | one record per period element of the section |
| `FinStatements.FinStatementRecord` | ib_fundamental/xml_parser.py:117-152 | record k belongs to period element k. It has the statement's class and copies `Type`, `EndDate` and `FiscalYear`. Quarter records get `FiscalPeriodNumber` and the first Source date as their 10-Q date; annual records get that date as their 10-K date |
| `FinStatements.FinStatementItems` | ib_fundamental/xml_parser.py:141-152 | the line items of record k are the dictionary read from the section's periods with its date (or the requested one); an annual record takes a `period_number` key out of it as its period number |
| `FinStatements.FinStatementEndDate` | ib_fundamental/xml_parser.py:110-113 | a requested end date keeps a subsequence of the periods, and every record carries that date |
| `FinStatements.FinStatementNoLineItems` | ib_fundamental/xml_parser.py:148-150 | a period without matching line items yields a record with no line items, not an error; an annual one then has no period number |
| `FinStatements.FinStatementDeclares` | ib_fundamental/xml_parser.py:150-152 | every line-item key of a record is a field of the statement's class |
| `FinStatements.FinStatementKeys` | ib_fundamental/xml_parser.py:150 | the line-item keys are exactly the lower-cased `coaCode` values of the period's lineItem elements, except `period_number` on an annual record, and are lower-case |
| `FinStatements.FinStatementSameDate` | ib_fundamental/xml_parser.py:141-148 | line items are looked up by date: two records with the same end date have the same line items |
| `FinStatements.BuildAllOk` | ib_fundamental/xml_parser.py:152 | zipping metadata with line items builds every record exactly when every dictionary is accepted by its record's constructor; the failure is TypeError |
| `FinStatements.MapItemsAll` | ib_fundamental/xml_parser.py:165-179 | without a statement code every COAMap child becomes a row, in document order |
| `FinStatements.MapItemsFiltered` | ib_fundamental/xml_parser.py:168-178 | with a code, the rows are the unfiltered rows of that statement type, in the same order: a subsequence |
| `FinStatements.MapItemsPartition` | ib_fundamental/xml_parser.py:168-178 | when every row is INC, BAL or CAS, the three filtered lists together are as long as the unfiltered one |
| `CompanyIdentity.TypedGet` | ib_fundamental/xml_parser.py:391-394 | `.get(t)` on a `Type`-keyed dictionary gives the text of the last element of that type, or `None` |
| `CompanyIdentity.CompanyInfoFields` | ib_fundamental/xml_parser.py:388-407 | each identity field comes from the last matching CoID, IssueID or Exchange element. The exchange code is that element's `Code` attribute. A field with no matching element is `None` |
| `CompanyIdentity.CompanyInfoMissingType` | ib_fundamental/xml_parser.py:391 | a CoID without a `Type` attribute raises KeyError |
| `Ownership.Single` | ib_fundamental/xml_parser.py:184-185 | one-element tuple unpacking succeeds exactly on a one-element list; ValueError otherwise |
| `Ownership.OwnerDict` | ib_fundamental/xml_parser.py:195-201 | the inner loop that fills an owner's dictionary returns what `OwnerFields` specifies |
| `Ownership.GetOwnershipReport` | ib_fundamental/xml_parser.py:181-205 | the loop over Owner elements returns what `OwnershipReportOf` specifies |
| `Ownership.CompanyUnpack` | ib_fundamental/xml_parser.py:184-190 | the ISIN and floatShares children must be unique (ValueError otherwise); the company block takes the ISIN text, the integer share count and its `asofDate` |
| `Ownership.OwnershipDetailsPerOwner` | ib_fundamental/xml_parser.py:191-205 | one detail record per Owner element, in document order |
| `Ownership.FoldKeys` | ib_fundamental/xml_parser.py:198-201 | the dictionary gains exactly the children's tags, plus `as_of_date` when some child has an attribute; nothing is removed |
| `Ownership.FoldLastTag` | ib_fundamental/xml_parser.py:201 | a tagged field holds the value of the last child with that tag (a float for `quantity`, text otherwise) |
| `Ownership.FoldUntouched` | ib_fundamental/xml_parser.py:198-201 | a key that no child names keeps its starting value |
| `Ownership.FoldNoAsOf` | ib_fundamental/xml_parser.py:199-200 | without an attributed child there is no `as_of_date` |
| `Ownership.FoldFirstAsOf` | ib_fundamental/xml_parser.py:199-200 | `as_of_date` comes from the first child with attributes; later children never overwrite it |
| `Ownership.OwnerRecordId` | ib_fundamental/xml_parser.py:196-203 | `owner_id` is the element's `ownerId` unless a child overrides it |
| `Ownership.OwnerRecordCurrency` | ib_fundamental/xml_parser.py:203 | `currency` is "" when no child gives one |
| `Ownership.OwnerRecordTag` | ib_fundamental/xml_parser.py:201-203 | each child-named field of the record is the value of the last child with that tag |
| `Ownership.OwnerRecordAsOf` | ib_fundamental/xml_parser.py:199-203 | the record's date is the `asofDate` of the first child with attributes |
| `Ownership.OwnerUnexpectedChild` | ib_fundamental/xml_parser.py:201-203 | a child tag outside the six fields makes the constructor raise TypeError |
| `Ownership.OwnerWithoutDate` | ib_fundamental/xml_parser.py:199-203 | an owner none of whose children has attributes gets no date, and its record raises TypeError |
| `FinSummary.DividendsMissing` | ib_fundamental/xml_parser.py:209-212 | the result is `None` exactly when there is no Dividends section |
| `FinSummary.DividendsNoCurrency` | ib_fundamental/xml_parser.py:213 | a section without `currency` raises KeyError, even without children |
| `FinSummary.DividendsRecords` | ib_fundamental/xml_parser.py:214-226 | one dividend per child, in order, with the section's currency, the child's `type`, its four dates and its value |
| `FinSummary.KeepMatches` | ib_fundamental/xml_parser.py:278-284 | the comprehension's condition on a child agrees with the filter on its parsed point |
| `FinSummary.PointsFrom` | ib_fundamental/xml_parser.py:269-285 | every point returned carries the section's currency, matches both optional filters, and is the parse of one of the section's children |
| `FinSummary.PointsFiltered` | ib_fundamental/xml_parser.py:269-285 | when every child parses, the series is the list of all points filtered by the AND of the two optional tests |
| `FinSummary.PointsKept` | ib_fundamental/xml_parser.py:269-285 | when the tests raise on no child, the series is the plain comprehension over the children they keep, so children that are dropped are never parsed |
| `FinSummary.PointsUnfiltered` | ib_fundamental/xml_parser.py:278-284 | with neither filter, no child is dropped |
| `FinSummary.PointsSkipUnread` | ib_fundamental/xml_parser.py:278-281 | a child whose report type differs from the one requested is dropped whatever its other attributes are |
| `FinSummary.SeriesMissingSection` | ib_fundamental/xml_parser.py:228-267 | a missing section gives `None` for dividends per share, and only then; revenue and EPS raise AttributeError instead |
| `FinSummary.RevenuesMatch` | ib_fundamental/xml_parser.py:259-286 | every revenue returned matches the requested report type and period and carries the section's currency |
| `FinSummary.EpsMatch` | ib_fundamental/xml_parser.py:288-315 | every EPS point returned matches the filter and carries the section's currency |
| `FinSummary.DivPerShareMatch` | ib_fundamental/xml_parser.py:228-257 | every dividend per share returned matches the filter and carries the section's currency |
| `FinSummary.RevenuesAsWrittenEmpty` | ib_fundamental/xml_parser.py:269-276 | as written, `get_revenue` can only return an empty list |
| `FinSummary.EpsAsWrittenEmpty` | ib_fundamental/xml_parser.py:298-305 | as written, `get_eps` can only return an empty list |
| `FinSummary.RevenuesAsWrittenFails` | ib_fundamental/xml_parser.py:269-285 | wherever the intended revenue series is non-empty, the code as written raises TypeError |
| `FinSummary.EpsAsWrittenFails` | ib_fundamental/xml_parser.py:298-314 | wherever the intended EPS series is non-empty, the code as written raises TypeError |
| `Snapshot.AnalystForecastFields` | ib_fundamental/xml_parser.py:317-330 | the forecast has the ten declared fields. Field k is present exactly when some Ratio's converted `FieldName` is k, and then holds the first Value of the last such Ratio |
| `Snapshot.AnalystForecastRaises` | ib_fundamental/xml_parser.py:324-326 | a Ratio without `FieldName` or without a Value child makes the call raise |
| `Snapshot.RatiosFields` | ib_fundamental/xml_parser.py:332-345 | the snapshot has the twenty-two declared fields. Field k is present exactly when some Ratio's lower-cased `FieldName` is k, and then holds the value of the last such Ratio |
| `Snapshot.RatioKeysLower` | ib_fundamental/xml_parser.py:339 | every key of the ratio dictionary is lower-case |
| `Snapshot.RatiosRaises` | ib_fundamental/xml_parser.py:338-343 | a Ratio without `FieldName` or `Type`, or whose value does not parse, makes the call raise |
| `Estimates.EstimatesIn` | ib_fundamental/xml_parser.py:347-366 | a row is an estimate exactly when some (FYEstimate, FYPeriod, ConsEstimate) triple of the tree yields it |
| `Estimates.EstimateRows` | ib_fundamental/xml_parser.py:350-361 | every estimate row is of kind Estimate with no `updated`. Its `est_type` comes from its ConsEstimate, its item from its FYEstimate, and its value from the ConsEstimate's first child |
| `Estimates.EstimatesCount` | ib_fundamental/xml_parser.py:362-364 | exactly one row per (FYEstimate, FYPeriod, ConsEstimate) triple |
| `Estimates.EstimatesEmptyEstimate` | ib_fundamental/xml_parser.py:359 | a ConsEstimate without children makes the call raise |
| `Estimates.PeriodWithoutEstimates` | ib_fundamental/xml_parser.py:363-364 | an FYPeriod with no ConsEstimate yields no row and is not read |
| `Estimates.ActualsIn` | ib_fundamental/xml_parser.py:368-386 | a row is an actual exactly when some (FYActual, FYPeriod) pair yields it |
| `Estimates.ActualRows` | ib_fundamental/xml_parser.py:371-382 | every actual row is of kind Actual with `est_type` "". Its value and `updated` timestamp come from its period's first child |
| `Estimates.ActualsCount` | ib_fundamental/xml_parser.py:383-384 | exactly one row per (FYActual, FYPeriod) pair |
| `Estimates.ActualsEmptyPeriod` | ib_fundamental/xml_parser.py:380-381 | an FYPeriod without children makes the call raise |
| `Report.ReqFund` | ib_fundamental/ib_client.py:83-98 | the request succeeds exactly when the provider answers, with that answer; ValueError otherwise |
| `Report.XMLReport.constructor` | ib_fundamental/xml_report.py:20-21 | a new cache stores the client, has six empty slots and has sent no request |
| `Report.XMLReport.Get` | ib_fundamental/xml_report.py:27-36 | one access returns the provider's tree or its failure. A request is sent exactly when the slot was empty. The slot then holds the provider's tree (or stays empty on failure), and the other slots do not change |
| `Report.XMLReport.FinStatements` | ib_fundamental/xml_report.py:27-36 | the `fin_statements` property accesses the ReportsFinStatements slot as `Get` does |
| `Report.XMLReport.FinSummary` | ib_fundamental/xml_report.py:38-47 | the `fin_summary` property accesses the ReportsFinSummary slot |
| `Report.XMLReport.Snapshot` | ib_fundamental/xml_report.py:49-56 | the `snapshot` property accesses the ReportSnapshot slot |
| `Report.XMLReport.Resc` | ib_fundamental/xml_report.py:58-65 | the `resc` property accesses the RESC slot |
| `Report.XMLReport.Ownership` | ib_fundamental/xml_report.py:67-74 | the `ownership` property accesses the ReportsOwnership slot |
| `Report.XMLReport.Calendar` | ib_fundamental/xml_report.py:76-83 | the `calendar` property accesses the CalendarReport slot, and fails when the provider has no calendar |
| `Report.AtMostOnce` | ib_fundamental/xml_report.py:27-83 | a report that exists is requested at most once, however often it is read |
| `Report.EmptySlot` | ib_fundamental/xml_report.py:27-83 | an empty slot means the report does not exist or was never asked for |
| `Parser.XMLParser.constructor` | ib_fundamental/xml_parser.py:64-65 | a new parser has a fresh, empty report cache that has sent no request |
| `Parser.XMLParser.GetFinStatement` | ib_fundamental/xml_parser.py:71-152 | reads the statements report through the cache (one access) and returns the statements of the requested code, period and date |
| `Parser.XMLParser.GetMapItems` | ib_fundamental/xml_parser.py:154-179 | reads the statements report and returns its COA mapping rows |
| `Parser.XMLParser.GetOwnershipReport` | ib_fundamental/xml_parser.py:181-205 | reads the ownership report and returns the ownership record |
| `Parser.XMLParser.GetDividend` | ib_fundamental/xml_parser.py:207-226 | reads the summary report and returns its dividends |
| `Parser.XMLParser.GetDivPerShare` | ib_fundamental/xml_parser.py:228-257 | reads the summary report and returns its filtered dividends per share |
| `Parser.XMLParser.GetRevenue` | ib_fundamental/xml_parser.py:259-286 | reads the summary report and returns its filtered revenues |
| `Parser.XMLParser.GetEps` | ib_fundamental/xml_parser.py:288-315 | reads the summary report and returns its filtered EPS |
| `Parser.XMLParser.GetAnalystForecast` | ib_fundamental/xml_parser.py:317-330 | reads the snapshot report and returns the analyst forecast |
| `Parser.XMLParser.GetRatios` | ib_fundamental/xml_parser.py:332-345 | reads the snapshot report and returns the ratio snapshot |
| `Parser.XMLParser.GetFyEstimates` | ib_fundamental/xml_parser.py:347-366 | reads the RESC report and returns the forward-year estimates |
| `Parser.XMLParser.GetFyActuals` | ib_fundamental/xml_parser.py:368-386 | reads the RESC report and returns the forward-year actuals |
| `Parser.XMLParser.GetCompanyInfo` | ib_fundamental/xml_parser.py:388-407 | reads the statements report and returns the company identity |
| `Fundamental.CompanyFundamental.constructor` | ib_fundamental/fundamental.py:45-57 | stores the symbol, sets `ticker` to `None`, leaves every property slot empty and sends no request |
| `Fundamental.CompanyFundamental.IncomeAnnual` | ib_fundamental/fundamental.py:76-87 | returns the annual INC statements. A filled slot is returned as it is, with no request. Otherwise the result is stored exactly when it is a value |
| `Fundamental.CompanyFundamental.IncomeAnnualMr` | ib_fundamental/fundamental.py:89-96 | element 0 of the annual INC list (IndexError when empty), memoised like the list it reads |
| `Fundamental.CompanyFundamental.IncomeQuarter` | ib_fundamental/fundamental.py:98-107 | the quarterly INC statements, memoised |
| `Fundamental.CompanyFundamental.IncomeMrq` | ib_fundamental/fundamental.py:109-115 | element 0 of the quarterly INC list, memoised |
| `Fundamental.CompanyFundamental.BalanceAnnual` | ib_fundamental/fundamental.py:117-125 | the annual BAL statements, memoised |
| `Fundamental.CompanyFundamental.BalanceAnnualMr` | ib_fundamental/fundamental.py:127-133 | element 0 of the annual BAL list, memoised |
| `Fundamental.CompanyFundamental.BalanceQuarter` | ib_fundamental/fundamental.py:135-143 | the quarterly BAL statements, memoised |
| `Fundamental.CompanyFundamental.BalanceMrq` | ib_fundamental/fundamental.py:145-151 | element 0 of the quarterly BAL list, memoised |
| `Fundamental.CompanyFundamental.CashflowAnnual` | ib_fundamental/fundamental.py:153-161 | the annual CAS statements, memoised |
| `Fundamental.CompanyFundamental.CashflowAnnualMr` | ib_fundamental/fundamental.py:163-169 | element 0 of the annual CAS list, memoised |
| `Fundamental.CompanyFundamental.CashflowQuarter` | ib_fundamental/fundamental.py:171-179 | the quarterly CAS statements, memoised |
| `Fundamental.CompanyFundamental.CashflowMrq` | ib_fundamental/fundamental.py:181-187 | element 0 of the quarterly CAS list, memoised |
| `Fundamental.CompanyFundamental.OwnershipReport` | ib_fundamental/fundamental.py:189-196 | the ownership report, memoised |
| `Fundamental.CompanyFundamental.Dividend` | ib_fundamental/fundamental.py:198-204 | the dividends, memoised; a `None` result is stored too and never asked for again |
| `Fundamental.CompanyFundamental.DivPsQ` | ib_fundamental/fundamental.py:206-214 | dividends per share filtered by ("R", "3M"), memoised |
| `Fundamental.CompanyFundamental.DivPsTtm` | ib_fundamental/fundamental.py:216-222 | dividends per share filtered by ("TTM", any period), memoised |
| `Fundamental.CompanyFundamental.RevenueTtm` | ib_fundamental/fundamental.py:224-230 | revenues filtered by ("TTM", any period), memoised |
| `Fundamental.CompanyFundamental.RevenueQ` | ib_fundamental/fundamental.py:232-238 | revenues filtered by ("R", "3M"), memoised |
| `Fundamental.CompanyFundamental.RevenueMrq` | ib_fundamental/fundamental.py:240-246 | element 0 of the TTM revenue list, not of the quarterly one, memoised |
| `Fundamental.CompanyFundamental.EpsTtm` | ib_fundamental/fundamental.py:248-254 | EPS filtered by ("TTM", any period), memoised |
| `Fundamental.CompanyFundamental.EpsQ` | ib_fundamental/fundamental.py:256-262 | EPS filtered by ("R", "3M"), memoised |
| `Fundamental.CompanyFundamental.EpsMrq` | ib_fundamental/fundamental.py:264-270 | element 0 of the TTM EPS list, memoised |
| `Fundamental.CompanyFundamental.AnalystForecast` | ib_fundamental/fundamental.py:272-278 | the analyst forecast, memoised |
| `Fundamental.CompanyFundamental.Ratios` | ib_fundamental/fundamental.py:280-286 | the ratio snapshot, memoised |
| `Fundamental.CompanyFundamental.FyEstimates` | ib_fundamental/fundamental.py:297-303 | the forward-year estimates, memoised |
| `Fundamental.CompanyFundamental.FyActuals` | ib_fundamental/fundamental.py:305-311 | the forward-year actuals, memoised |
| `Fundamental.CompanyFundamental.CompanyInfo` | ib_fundamental/fundamental.py:313-319 | the company identity, memoised |
| `Fundamental.MostRecentIsFirst` | ib_fundamental/fundamental.py:89-96 | a cached most-recent value is element 0 of the cached list it came from, which is non-empty |
| `Fundamental.OneRequestPerReport` | ib_fundamental/fundamental.py:76-319 | however many properties a company reads, each existing report is requested at most once |
| `Fundamental.RevenueMrqIsTtm` | ib_fundamental/fundamental.py:240-246 | `revenue_mrq` is a TTM figure |
| `Fundamental.EpsMrqIsTtm` | ib_fundamental/fundamental.py:264-270 | `eps_mrq` is a TTM figure |
| `Fundamental.QuarterlyRevenue` | ib_fundamental/fundamental.py:232-238 | every cached quarterly revenue has report type "R" and period "3M" |
| `Fundamental.QuarterlyEps` | ib_fundamental/fundamental.py:256-262 | every cached quarterly EPS has report type "R" and period "3M" |
| `Fundamental.QuarterlyDivPerShare` | ib_fundamental/fundamental.py:206-214 | every cached quarterly dividend per share has report type "R" and period "3M" |

## Left out

- The IB session in ib_client.py is not modelled: connecting, building the
  contract, `reqMktData`, `get_ratios`' polling loop, `cancel_ticket` and
  disconnecting. The provider's answer per report kind is a parameter, and
  it gives the same answer every time it is asked.
- `CompanyFundamental.fundamental_ratios` is not modelled: it streams market
  data and is the only code that fills `ticker`. The `__del__`, `__enter__`,
  `__exit__` and `__repr__` methods are left out too.
- `fromstring` (XML text to element tree) is a library call. The caches hold
  the tree the provider's text parses to, and an empty response is the
  provider's `None`.
- `float`, `int`, `date.fromisoformat` and `pd.to_datetime` are abstract
  partial functions; floating-point values are never inspected.
- ElementTree's general XPath is not modelled, only the query shapes listed
  above.
- `utils.to_json` and `utils.to_dataframe` are wrappers over orjson and pandas.
- `__init__.py` holds re-exports only.
- Case conversion covers ASCII letters only, as the regular expression at
  utils.py:13 does. `str.lower()` on non-ASCII letters is not modelled.
- `end_date` is passed to `get_fin_statement` as the string it is compared
  with. No `date` object is converted.
- Report.ReqFund: the ValueError message omits the ", contract: ..."
  suffix, because the contract is not part of the model.
- Estimates.EstimatesIn: the order of forward-year rows is stated by
  membership and count, not as a sequence equation. The rows are built in
  iteration order.
- Estimates.ActualsIn: the same holds for actual rows.
- Fundamental.CompanyFundamental.IncomeAnnual: each facade method requires
  only the invariant of the slots it reads and writes. `Valid()` collects
  all of them, but no lemma restates it as one joint invariant across all
  properties.
- Parser.XMLParser.GetRevenue: modelled on the five-field `Revenue` record
  the call evidently intends. As written, the first row that passes the
  filter raises, with TypeError once its fields parse (see
  FinSummary.RevenuesAsWrittenFails and the Findings below).
- Parser.XMLParser.GetEps: modelled on the five-field `EarningsPerShare`
  record. As written, the first row that passes the filter raises (see
  FinSummary.EpsAsWrittenFails).
- Fundamental.CompanyFundamental.RevenueTtm: holds the corrected revenue
  series. As written the property returns only the empty list and raises
  wherever a row matches (FinSummary.RevenuesAsWrittenFails).
- Fundamental.CompanyFundamental.RevenueQ: the same holds for the quarterly
  revenue series.
- Fundamental.CompanyFundamental.RevenueMrq: reads element 0 of the
  corrected TTM revenue series. As written there is never an element 0: the
  list is empty or the call raises.
- Fundamental.CompanyFundamental.EpsTtm: holds the corrected EPS series. As
  written the property returns only the empty list and raises wherever a row
  matches (FinSummary.EpsAsWrittenFails).
- Fundamental.CompanyFundamental.EpsQ: the same holds for the quarterly EPS
  series.
- Fundamental.CompanyFundamental.EpsMrq: reads element 0 of the corrected
  TTM EPS series. As written there is never an element 0.
- Fundamental.RevenueMrqIsTtm: stated about the corrected series; as written
  `revenue_mrq` never returns a value.
- Fundamental.EpsMrqIsTtm: stated about the corrected series; as written
  `eps_mrq` never returns a value.
- Fundamental.QuarterlyRevenue: stated about the corrected series; as
  written the cached list is always empty.
- Fundamental.QuarterlyEps: stated about the corrected series; as written
  the cached list is always empty.
- The calendar report is fetched by `XMLReport.calendar` but never parsed.
  The model proves that the access fails when the provider has no calendar
  report. Whether IB serves one is a fact about the service.

## Findings

| source | as written | input that shows it | evidently intended | confidence | as-written member | corrected member |
|---|---|---|---|---|---|---|
| ib_fundamental/xml_parser.py:270-276 | `get_revenue` calls `Revenue(as_of_date=…, report_type=…, period=…, currency=…, revenue=…)`, but `Revenue` (objects.py:205-211) declares only `as_of_date`, `report_type` and `revenue`, so the call raises TypeError | a TotalRevenues section with a `currency` attribute and one child whose `reportType` and `period` match the filter and whose `asofDate` and text parse | a `Revenue` record carrying all five fields, as the tests read `.period` | high; not executed | `FinSummary.RevenuesAsWrittenFails` | `FinSummary.RevenuesMatch` |
| ib_fundamental/xml_parser.py:299-305 | `get_eps` calls `EarningsPerShare(…, period=…, currency=…, eps=…)` against a class (objects.py:214-220) declaring only `as_of_date`, `report_type` and `eps`, so the call raises TypeError | an EPSs section with a `currency` attribute and one child that matches the filter and parses | an `EarningsPerShare` record carrying all five fields | high; not executed | `FinSummary.EpsAsWrittenFails` | `FinSummary.EpsMatch` |
