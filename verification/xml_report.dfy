/**
 * `XMLReport`: a cache of the six report trees of one company. Each property
 * requests its report on first access and keeps the tree; a request that
 * fails leaves the slot empty, so the next access asks again.
 */
module Report {
  import opened Wrappers
  import opened XmlTree
  import opened Objects

  /**
   * The data provider's answer to `reqFundamentalData` for each report kind,
   * already parsed: `None` stands for an empty response.
   */
  type Provider = ReportType -> Option<Node>

  /** `IBClient.ib_req_fund`: the response, or ValueError when it is empty. */
  function ReqFund(provider: Provider, kind: ReportType): (r: Result<Node>)
    ensures r.Ok? <==> provider(kind).Some?
    ensures r.Ok? ==> r.value == provider(kind).value
    ensures r.Err? ==> r.error.ValueError?
  {
    match provider(kind)
    case Some(tree) => Ok(tree)
    case None => Err(ValueError("No response for report " + ReportTypeName(kind)))
  }

  /** How many requests of `kind` a log holds. */
  function Requests(log: seq<ReportType>, kind: ReportType): nat {
    multiset(log)[kind]
  }

  lemma RequestsSnoc(log: seq<ReportType>, kind: ReportType, other: ReportType)
    ensures Requests(log + [kind], other) == Requests(log, other) + (if other == kind then 1 else 0)
  {
    assert multiset(log + [kind]) == multiset(log) + multiset{kind};
  }

  class XMLReport {
    const provider: Provider
    var finStatements: Option<Node>
    var finSummary: Option<Node>
    var snapshot: Option<Node>
    var resc: Option<Node>
    var ownership: Option<Node>
    var calendar: Option<Node>
    /** Every request this cache has sent, in order. */
    ghost var requests: seq<ReportType>

    /** The slot that caches report `kind`. */
    function Slot(kind: ReportType): Option<Node>
      reads this
    {
      match kind
      case ReportsFinStatements => finStatements
      case ReportsFinSummary => finSummary
      case ReportSnapshot => snapshot
      case RESC => resc
      case ReportsOwnership => ownership
      case CalendarReport => calendar
    }

    /**
     * A filled slot holds the provider's tree and was requested exactly once;
     * an empty slot whose report exists was never requested.
     */
    ghost predicate SlotValid(kind: ReportType)
      reads this
    {
      && (Slot(kind).Some? ==> Slot(kind) == provider(kind))
      && (provider(kind).Some? ==> Requests(requests, kind) == (if Slot(kind).Some? then 1 else 0))
    }

    ghost predicate Valid()
      reads this
    {
      forall kind: ReportType :: SlotValid(kind)
    }

    /** `XMLReport(ib_client)`: stores the client and requests nothing. */
    constructor (provider: Provider)
      ensures this.provider == provider
      ensures forall kind :: Slot(kind).None?
      ensures requests == []
      ensures Valid()
    {
      this.provider := provider;
      finStatements, finSummary, snapshot, resc, ownership, calendar := None, None, None, None, None, None;
      requests := [];
    }

    /**
     * One access to the slot of `kind`: a request was sent exactly when the
     * slot was empty, the slot now holds the provider's tree (or stays empty
     * when there is none), and no other slot changes.
     */
    twostate predicate Fetched(kind: ReportType)
      reads this
    {
      && requests == old(requests) + (if old(Slot(kind)).Some? then [] else [kind])
      && Slot(kind) == provider(kind)
      && forall other :: other != kind ==> Slot(other) == old(Slot(other))
    }

    /** `Fetched`, returning the provider's tree or its failure. */
    twostate predicate Served(kind: ReportType, new r: Result<Node>)
      reads this
    {
      r == ReqFund(provider, kind) && Fetched(kind)
    }

    /** Fills the slot of `kind`, leaving the other five as they are. */
    method Store(kind: ReportType, tree: Node)
      modifies this
      ensures Slot(kind) == Some(tree)
      ensures forall other :: other != kind ==> Slot(other) == old(Slot(other))
      ensures requests == old(requests)
    {
      match kind
      case ReportsFinStatements => finStatements := Some(tree);
      case ReportsFinSummary => finSummary := Some(tree);
      case ReportSnapshot => snapshot := Some(tree);
      case RESC => resc := Some(tree);
      case ReportsOwnership => ownership := Some(tree);
      case CalendarReport => calendar := Some(tree);
    }

    /** The body shared by the six properties: the stored tree, or a request stored on success. */
    method Get(kind: ReportType) returns (r: Result<Node>)
      requires Valid()
      modifies this
      ensures Valid() && Served(kind, r)
    {
      var stored := Slot(kind);
      if stored.Some? {
        assert SlotValid(kind);
        return Ok(stored.value);
      }
      requests := requests + [kind];
      r := ReqFund(provider, kind);
      if r.Ok? {
        Store(kind, r.value);
      }
      forall other: ReportType
        ensures SlotValid(other)
      {
        assert old(SlotValid(other));
        RequestsSnoc(old(requests), kind, other);
      }
    }

    method FinStatements() returns (r: Result<Node>)
      requires Valid()
      modifies this
      ensures Valid() && Served(ReportsFinStatements, r)
    {
      r := Get(ReportsFinStatements);
    }

    method FinSummary() returns (r: Result<Node>)
      requires Valid()
      modifies this
      ensures Valid() && Served(ReportsFinSummary, r)
    {
      r := Get(ReportsFinSummary);
    }

    method Snapshot() returns (r: Result<Node>)
      requires Valid()
      modifies this
      ensures Valid() && Served(ReportSnapshot, r)
    {
      r := Get(ReportSnapshot);
    }

    method Resc() returns (r: Result<Node>)
      requires Valid()
      modifies this
      ensures Valid() && Served(RESC, r)
    {
      r := Get(RESC);
    }

    method Ownership() returns (r: Result<Node>)
      requires Valid()
      modifies this
      ensures Valid() && Served(ReportsOwnership, r)
    {
      r := Get(ReportsOwnership);
    }

    method Calendar() returns (r: Result<Node>)
      requires Valid()
      modifies this
      ensures Valid() && Served(CalendarReport, r)
    {
      r := Get(CalendarReport);
    }
  }

  /** A report that exists is requested at most once, however often its property is read. */
  lemma AtMostOnce(report: XMLReport, kind: ReportType)
    requires report.Valid() && report.provider(kind).Some?
    ensures Requests(report.requests, kind) <= 1
  {
    assert report.SlotValid(kind);
  }

  /** An empty slot means the provider has no such report or it was never asked for. */
  lemma EmptySlot(report: XMLReport, kind: ReportType)
    requires report.Valid() && report.Slot(kind).None?
    ensures report.provider(kind).None? || kind !in report.requests
  {
    assert report.SlotValid(kind);
  }
}
