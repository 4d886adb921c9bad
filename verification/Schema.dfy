/** The static tables of the synchroniser: upsert keys, references, column types, defaults
    and watched columns (src/app/integration/sync.py, src/app/domain/models.py). */
module Schema {
  import opened Basics
  import opened Tables

  /** Masters first so dependents can resolve their references. */
  const ENTITY_ORDER: seq<Entity> := [
    Item, Warehouse, Supplier, ItemSupplier, StockLevel, Price, LeadTime,
    Consumption, ProductionDemand, QualityRecord, PurchaseOrder]

  predicate IsMaster(e: Entity) {
    e.Item? || e.Warehouse? || e.Supplier?
  }

  predicate IsIdentity(e: Entity, c: Column) {
    match e
    case Item => c.Sku?
    case Warehouse => c.Code?
    case Supplier => c.Code?
    case ItemSupplier => c.ItemId? || c.SupplierId?
    case StockLevel => c.ItemId? || c.WarehouseId?
    case Price => c.ItemId? || c.SupplierId?
    case LeadTime => c.ItemId? || c.SupplierId?
    case Consumption => c.ItemId? || c.WarehouseId?
    case ProductionDemand => c.ItemId? || c.NeedBy?
    case QualityRecord => c.ItemId? || c.SupplierId? || c.AsOf?
    case PurchaseOrder => c.ExternalRef?
  }

  /** Identity columns a record must supply; a missing warehouse counts as NULL. */
  predicate IsRequired(e: Entity, c: Column) {
    IsIdentity(e, c) && !c.WarehouseId?
  }

  /** The upsert key: the values of the identity columns, NULL being a value. */
  datatype Key = Key(a: Value, b: Value, c: Value)

  function KeyOf(e: Entity, cols: map<Column, Value>): Key {
    match e
    case Item => Key(Cell(cols, Sku), Null, Null)
    case Warehouse => Key(Cell(cols, Code), Null, Null)
    case Supplier => Key(Cell(cols, Code), Null, Null)
    case ItemSupplier => Key(Cell(cols, ItemId), Cell(cols, SupplierId), Null)
    case StockLevel => Key(Cell(cols, ItemId), Cell(cols, WarehouseId), Null)
    case Price => Key(Cell(cols, ItemId), Cell(cols, SupplierId), Null)
    case LeadTime => Key(Cell(cols, ItemId), Cell(cols, SupplierId), Null)
    case Consumption => Key(Cell(cols, ItemId), Cell(cols, WarehouseId), Null)
    case ProductionDemand => Key(Cell(cols, ItemId), Cell(cols, NeedBy), Null)
    case QualityRecord => Key(Cell(cols, ItemId), Cell(cols, SupplierId), Cell(cols, AsOf))
    case PurchaseOrder => Key(Cell(cols, ExternalRef), Null, Null)
  }

  /** The key of the master row with natural key `text`. */
  function MasterKey(text: string): Key {
    Key(Text(text), Null, Null)
  }

  // ---- references ------------------------------------------------------------------------

  /** What a mapping may fill: a reference by natural key, a data column, or a name the
      entity does not have. */
  datatype Attr = ItemSku | SupplierCode | WarehouseCode | Col(c: DataColumn) | UnknownAttr

  function RefAttr(fk: Column): Attr
    requires IsForeignKey(fk)
  {
    match fk
    case ItemId => ItemSku
    case SupplierId => SupplierCode
    case WarehouseId => WarehouseCode
  }

  function RefTarget(fk: Column): Entity
    requires IsForeignKey(fk)
  {
    match fk
    case ItemId => Item
    case SupplierId => Supplier
    case WarehouseId => Warehouse
  }

  function References(e: Entity): seq<Column> {
    match e
    case ItemSupplier => [ItemId, SupplierId]
    case Price => [ItemId, SupplierId]
    case LeadTime => [ItemId, SupplierId]
    case QualityRecord => [ItemId, SupplierId]
    case PurchaseOrder => [ItemId, SupplierId]
    case StockLevel => [ItemId, WarehouseId]
    case Consumption => [ItemId, WarehouseId]
    case ProductionDemand => [ItemId]
    case _ => []
  }

  predicate Refers(e: Entity, fk: Column) {
    match fk
    case ItemId => !IsMaster(e)
    case SupplierId => e.ItemSupplier? || e.Price? || e.LeadTime? || e.QualityRecord? || e.PurchaseOrder?
    case WarehouseId => e.StockLevel? || e.Consumption?
    case _ => false
  }

  // ---- columns ---------------------------------------------------------------------------

  datatype ColumnType = Number | Calendar | Instant | Boolean | Varchar

  function TypeOf(c: DataColumn): ColumnType {
    if c.Quantity? || c.MinQuantity? || c.UnitPrice? || c.Days? || c.DefectRate? || c.ReceivedQuantity? then Number
    else if c.ValidFrom? || c.ValidTo? || c.PeriodStart? || c.PeriodEnd? || c.NeedBy? then Calendar
    else if c.AsOf? || c.OrderedAt? || c.ExpectedAt? || c.ReceivedAt? then Instant
    else if c.IsActive? || c.IsApproved? || c.Preferred? then Boolean
    else Varchar
  }

  predicate HasData(e: Entity, c: Column) {
    match e
    case Item => c.Sku? || c.Name? || c.Category? || c.Unit? || c.IsActive?
    case Warehouse => c.Code? || c.Name? || c.Location?
    case Supplier => c.Code? || c.Name? || c.IsApproved? || c.Notes?
    case ItemSupplier => c.Preferred?
    case StockLevel => c.Quantity? || c.MinQuantity? || c.AsOf?
    case Price => c.UnitPrice? || c.Currency? || c.ValidFrom? || c.ValidTo?
    case LeadTime => c.Days? || c.AsOf?
    case Consumption => c.Quantity? || c.PeriodStart? || c.PeriodEnd?
    case ProductionDemand => c.Quantity? || c.NeedBy? || c.SourceRef?
    case QualityRecord => c.DefectRate? || c.Note? || c.AsOf?
    case PurchaseOrder =>
      c.ExternalRef? || c.Quantity? || c.UnitPrice? || c.Status? || c.OrderedAt? || c.ExpectedAt?
      || c.ReceivedAt? || c.ReceivedQuantity? || c.Origin?
  }

  predicate HasColumn(e: Entity, c: Column) {
    Refers(e, c) || HasData(e, c)
  }

  predicate NotNull(e: Entity, c: Column) {
    if IsForeignKey(c) then
      !c.WarehouseId? && !e.PurchaseOrder? && !(e.QualityRecord? && c.SupplierId?)
    else
      c.Sku? || c.Code? || c.ExternalRef? || c.Name? || c.IsActive? || c.IsApproved? || c.Notes?
      || c.Preferred? || c.Note? || c.Status? || c.Origin? || c.Quantity? || c.Days?
      || (c.UnitPrice? && e.Price?)
  }

  function DefaultOf(e: Entity, c: Column): Value {
    if c.Name? || c.Notes? || c.Note? then Text("")
    else if c.IsActive? then Flag(true)
    else if c.IsApproved? || c.Preferred? then Flag(false)
    else if c.Quantity? || c.Days? || (c.UnitPrice? && e.Price?) then Num(0.0)
    else if c.Status? then Text("open")
    else if c.Origin? then Text("external")
    else Null
  }

  /** The value a column holds once `v` is stored: numbers keep four decimals. */
  function Stored(v: Value): Value {
    if v.Num? then Num(Round4(v.r)) else v
  }

  /** The database accepts the stored value `v` in this column. */
  predicate Accepts(e: Entity, c: Column, v: Value) {
    match v
    case Null => !NotNull(e, c)
    case Num(r) => Fits(r)
    case Text(s) =>
      && (c.Status? ==> s == "open" || s == "received" || s == "cancelled")
      && (c.Origin? ==> s == "external" || s == "smart_procurement")
      && (c.Currency? ==> |s| <= 3)
    case _ => true
  }

  // ---- watched columns -------------------------------------------------------------------

  /** The column whose changes are observed, and the signal such a change emits. */
  function Watched(e: Entity): Option<(DataColumn, SignalType)> {
    match e
    case StockLevel => Some((Quantity, StockChange))
    case Price => Some((UnitPrice, PriceChange))
    case LeadTime => Some((Days, LeadTimeChange))
    case QualityRecord => Some((DefectRate, QualityIssue))
    case ProductionDemand => Some((Quantity, DemandChange))
    case _ => None
  }

  lemma ReferencesMatch(e: Entity, fk: Column)
    ensures fk in References(e) <==> Refers(e, fk)
    ensures Refers(e, fk) ==> IsForeignKey(fk)
    ensures IsForeignKey(fk) && IsIdentity(e, fk) ==> Refers(e, fk)
    ensures !IsForeignKey(fk) && IsIdentity(e, fk) ==> HasData(e, fk)
  {
  }
}
