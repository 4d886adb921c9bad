/** The tables of the pipeline and the database session that handlers change.

    Every table is a sequence in insertion order; a row's identifier is its index.
    No shown code path deletes a row. */
module Tables {
  import opened Basics

  // ---- canonical domain rows -----------------------------------------------------------

  datatype Entity =
    | Item | Warehouse | Supplier | ItemSupplier | StockLevel | Price | LeadTime
    | Consumption | ProductionDemand | QualityRecord | PurchaseOrder

  datatype Column =
    | ItemId | SupplierId | WarehouseId
    | Sku | Code | ExternalRef
    | Name | Category | Unit | IsActive | Location | IsApproved | Notes | Preferred
    | Quantity | MinQuantity | UnitPrice | Currency | ValidFrom | ValidTo | Days
    | PeriodStart | PeriodEnd | NeedBy | SourceRef | DefectRate | Note | AsOf
    | Status | Origin | OrderedAt | ExpectedAt | ReceivedAt | ReceivedQuantity

  predicate IsForeignKey(c: Column) {
    c.ItemId? || c.SupplierId? || c.WarehouseId?
  }

  /** A column whose value comes from a source record rather than from a resolved reference. */
  type DataColumn = c: Column | !IsForeignKey(c) witness Sku

  datatype Value =
    | Null
    | Num(r: real)
    | Text(s: string)
    | Ref(id: Id)
    | Day(d: int)
    | Time(t: int)
    | Flag(b: bool)

  datatype Observability = Fresh | Stale | Lost

  /** A canonical row. `initial` holds the values it was inserted with and is never updated:
      the table does not store it, it is kept here to state what the signals say. `createdAt`
      is the time of the inserting transaction, which its rows share; `rank` is the arbitrary
      place at which the database lists the row among rows a query does not order. */
  datatype Row = Row(
    entity: Entity,
    ent: Id,
    cols: map<Column, Value>,
    initial: map<Column, Value>,
    observability: Observability,
    source: Id,
    fetchedAt: int,
    createdAt: int,
    rank: int)

  function Cell(cols: map<Column, Value>, c: Column): Value {
    if c in cols then cols[c] else Null
  }

  // ---- observation -----------------------------------------------------------------------

  datatype SignalType = StockChange | PriceChange | LeadTimeChange | QualityIssue | DemandChange

  /** An append-only observation. `row` is the changed row; the table does not store it,
      it is kept here to state per-row chains. */
  datatype Signal = Signal(
    ent: Id,
    source: Id,
    kind: SignalType,
    item: Option<Id>,
    supplier: Option<Id>,
    entity: Entity,
    before: Value,
    after: Value,
    observedAt: int,
    row: Id)

  datatype Figures = Figures(
    avgDaily: Option<real>,
    cover: Option<real>,
    nextDelivery: Option<int>,
    lastPrice: Option<real>,
    trend: Option<real>,
    avgDelay: Option<real>)

  /** An item-level aggregate; the per-warehouse ones are never written. */
  datatype Aggregate = Aggregate(ent: Id, item: Id, figures: Figures, computedAt: int)

  datatype GapScope = SourceScope | EntityScope | CapabilityScope
  datatype GapReason = SourceUnavailable | StaleData | AiUnavailable
  datatype ScopeRef = SourceRow(id: Id) | CapabilityKey(key: string)
  datatype GapKey = GapKey(ent: Id, scope: GapScope, ref: ScopeRef, reason: GapReason)
  datatype Gap = Gap(key: GapKey, openedAt: int, closedAt: Option<int>)

  // ---- analysis ----------------------------------------------------------------------------

  datatype RiskType =
    | LikelyShortage | InsufficientUntilNextDelivery | ProductionStopRisk
    | SystematicSupplierDelay | QualityDegradation | PriceAnomaly

  datatype Severity = Low | Med | High
  datatype RiskStatus = Open | Recommended | Actioned | Resolved | Dismissed
  datatype AiStatus = AiPending | AiReady | AiDown

  datatype Dismissal = Dismissal(reason: string, at: int, user: Id)

  datatype Finding = Finding(
    ent: Id,
    kind: RiskType,
    item: Option<Id>,
    supplier: Option<Id>,
    severity: Severity,
    status: RiskStatus,
    aiStatus: AiStatus,
    detectedAt: int,
    resolvedAt: Option<int>,
    dismissal: Option<Dismissal>)

  predicate Terminal(f: Finding) {
    f.status.Resolved? || f.status.Dismissed?
  }

  datatype Link = Link(finding: Id, signal: Id)

  datatype Evidence = SignalEvidence(id: Id) | AggregateEvidence(id: Id) | DomainEvidence(id: Id)

  datatype Explanation = Explanation(
    ent: Id, finding: Id, what: string, why: string, dataUsed: seq<Evidence>, confidence: real)

  datatype AuditEvent =
    | AiUnavailableEvent(capability: string, error: string)
    | RiskDismissedEvent(finding: Id, reason: string, user: Id)
  datatype Audit = Audit(ent: Id, event: AuditEvent)

  // ---- sources and jobs -------------------------------------------------------------------

  datatype Health = Available | Unavailable | StaleHealth

  datatype Source = Source(
    ent: Id,
    interval: int,
    health: Health,
    lastError: Option<string>,
    lastSuccessAt: Option<int>,
    lastCheckAt: Option<int>)

  datatype Task =
    | ObserveSource(ent: Id, source: Id)
    | RecomputeAggregates(ent: Id, items: set<Id>)
    | DetectRisks(ent: Id)
    | GenerateExplanation(ent: Id, finding: Id)
    | SuggestMapping(ent: Id, source: Id)
    | Noop
    | UnknownKind(name: string)

  datatype JobStatus = Pending | Running | Done | Failed

  /** A job. `watermark` is the number of signals the log held when the job was enqueued:
      the table does not store it, it is kept here to state which signals a job follows. */
  datatype Job = Job(
    task: Task,
    runAt: int,
    status: JobStatus,
    attempts: nat,
    maxAttempts: int,
    lockedBy: Option<Id>,
    lockedAt: Option<int>,
    lastError: Option<string>,
    watermark: nat)

  datatype Db = Db(
    sources: seq<Source>,
    rows: seq<Row>,
    signals: seq<Signal>,
    aggregates: seq<Aggregate>,
    findings: seq<Finding>,
    links: seq<Link>,
    explanations: seq<Explanation>,
    gaps: seq<Gap>,
    audits: seq<Audit>,
    jobs: seq<Job>)

  /** A database session: `db` is what the open transaction sees, `committed` what the
      database holds. */
  class Session {
    var db: Db
    var committed: Db

    constructor (stored: Db)
      ensures db == committed == stored
    {
      db, committed := stored, stored;
    }

    method Commit()
      modifies this`committed
      ensures committed == db
    {
      committed := db;
    }

    method Rollback()
      modifies this`db
      ensures db == committed
    {
      db := committed;
    }
  }
}
