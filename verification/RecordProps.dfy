/** What reading one record means for the tables (src/app/integration/sync.py:245-376), said of the
    record, the mappings and the rows themselves. */
module RecordProps {
  import opened Basics
  import opened Folds
  import opened Tables
  import opened Schema
  import opened Gaps
  import opened SyncSpec
  import opened SyncProps

  // ---- an entity's mappings ------------------------------------------------------------------------

  /** The mappings of one entity, in order. */
  function Own(ms: seq<Mapping>, e: Entity): seq<Mapping> {
    if ms == [] then [] else (if ms[0].entity == e then [ms[0]] else []) + Own(ms[1..], e)
  }

  lemma {:induction false} OwnMore(ms: seq<Mapping>, m: Mapping, e: Entity)
    ensures Own(ms + [m], e) == Own(ms, e) + if m.entity == e then [m] else []
  {
    if ms == [] {
      assert [m][1..] == [];
    } else {
      var first, last := if ms[0].entity == e then [ms[0]] else [], if m.entity == e then [m] else [];
      OwnMore(ms[1..], m, e);
      assert (ms + [m])[0] == ms[0] && (ms + [m])[1..] == ms[1..] + [m];
      assert Own(ms + [m], e) == first + Own(ms[1..] + [m], e);
      assert first + (Own(ms[1..], e) + last) == first + Own(ms[1..], e) + last;
    }
  }

  lemma {:induction false} ForEntityIsOwn(ms: seq<Mapping>, e: Entity)
    ensures ForEntity(ms, e) == Own(ms, e)
  {
    if ms != [] {
      var n := |ms| - 1;
      ForEntityIsOwn(ms[..n], e);
      OwnMore(ms[..n], ms[n], e);
      assert ms == ms[..n] + [ms[n]];
    }
  }

  // ---- the value a text is read as -------------------------------------------------------------------

  function Readable1<T>(read: Option<T>, wrap: T -> Value): Value {
    if read.Some? then wrap(read.value) else Null
  }

  /** Text is read by the type of its column; what cannot be read is null. */
  lemma CoerceReads(codec: Codec, c: DataColumn, text: string)
    ensures c in {Quantity, MinQuantity, UnitPrice, Days, DefectRate, ReceivedQuantity} ==>
              Coerce(codec, c, text) == Readable1(codec.decimal(text), (r: real) => Num(r))
    ensures c in {ValidFrom, ValidTo, PeriodStart, PeriodEnd, NeedBy} ==>
              Coerce(codec, c, text) == Readable1(codec.day(text), (d: int) => Day(d))
    ensures c in {AsOf, OrderedAt, ExpectedAt, ReceivedAt} ==>
              Coerce(codec, c, text) == Readable1(codec.instant(text), (t: int) => Time(t))
    ensures c in {IsActive, IsApproved, Preferred} ==> Coerce(codec, c, text) == Flag(codec.truth(text))
    ensures c in {Sku, Code, ExternalRef, Name, Category, Unit, Location, Notes, Currency, SourceRef, Note, Status,
                  Origin} ==>
              Coerce(codec, c, text) == Text(text)
  {
  }

  /** A column that a new row leaves out, or cannot read, holds this. */
  lemma DefaultsAre(e: Entity, c: Column)
    ensures DefaultOf(e, c) ==
            if c in {Name, Notes, Note} then Text("")
            else if c == IsActive then Flag(true)
            else if c in {IsApproved, Preferred} then Flag(false)
            else if c in {Quantity, Days} || (c == UnitPrice && e == Price) then Num(0.0)
            else if c == Status then Text("open")
            else if c == Origin then Text("external")
            else Null
  {
  }

  // ---- what a record asks for ------------------------------------------------------------------------

  /** Row `i` is the enterprise's master row that the record names for this foreign key. */
  predicate Names(rows: seq<Row>, ent: Id, attrs: map<Attr, string>, fk: Column, i: Id) {
    i < |rows| && rows[i].ent == ent &&
    match fk
    case ItemId => ItemSku in attrs && rows[i].entity.Item? && Cell(rows[i].cols, Sku) == Text(attrs[ItemSku])
    case SupplierId =>
      SupplierCode in attrs && rows[i].entity.Supplier? && Cell(rows[i].cols, Code) == Text(attrs[SupplierCode])
    case WarehouseId =>
      WarehouseCode in attrs && rows[i].entity.Warehouse? && Cell(rows[i].cols, Code) == Text(attrs[WarehouseCode])
    case _ => false
  }

  ghost predicate Named(rows: seq<Row>, ent: Id, attrs: map<Attr, string>, fk: Column) {
    exists i: Id :: Names(rows, ent, attrs, fk, i)
  }

  lemma NamesIsKey(rows: seq<Row>, ent: Id, attrs: map<Attr, string>, fk: Column, i: Id)
    requires IsForeignKey(fk)
    ensures Names(rows, ent, attrs, fk, i) <==>
              i < |rows| && RefAttr(fk) in attrs
              && HasKey(rows[i], RefTarget(fk), ent, MasterKey(attrs[RefAttr(fk)]))
  {
  }

  lemma ReferMeans(rows: seq<Row>, ent: Id, e: Entity, attrs: map<Attr, string>, fk: Column)
    requires UniqueKeys(rows) && IsForeignKey(fk)
    ensures Refer(rows, ent, e, attrs, fk).Some? <==> Refers(e, fk) && Named(rows, ent, attrs, fk)
    ensures forall i: Id :: Refers(e, fk) && Names(rows, ent, attrs, fk, i) ==>
              Refer(rows, ent, e, attrs, fk) == Some(i)
  {
    forall i: Id
      ensures Names(rows, ent, attrs, fk, i) <==>
                i < |rows| && RefAttr(fk) in attrs
                && HasKey(rows[i], RefTarget(fk), ent, MasterKey(attrs[RefAttr(fk)]))
    {
      NamesIsKey(rows, ent, attrs, fk, i);
    }
    forall i: Id | Refers(e, fk) && Names(rows, ent, attrs, fk, i)
      ensures Refer(rows, ent, e, attrs, fk) == Some(i)
    {
      FindIsThe(rows, RefTarget(fk), ent, MasterKey(attrs[RefAttr(fk)]), i);
    }
    var found := Refer(rows, ent, e, attrs, fk);
    if found.Some? {
      assert Names(rows, ent, attrs, fk, found.value);
    }
  }

  lemma ForeignKeysMean(rows: seq<Row>, ent: Id, e: Entity, attrs: map<Attr, string>, fk: Column)
    requires UniqueKeys(rows)
    ensures var fks := ForeignKeys(e, MastersOf(rows, ent, e, attrs));
            && (fk in fks <==> IsForeignKey(fk) && Refers(e, fk) && Named(rows, ent, attrs, fk))
            && (forall i: Id :: fk in fks && Names(rows, ent, attrs, fk, i) ==> fks[fk] == i)
  {
    ReferencesMatch(e, fk);
    if IsForeignKey(fk) {
      ReferMeans(rows, ent, e, attrs, fk);
    }
  }

  /** The record has every identity value its table requires: a missing warehouse is allowed. */
  ghost predicate Complete(rows: seq<Row>, ent: Id, e: Entity, attrs: map<Attr, string>) {
    forall c: Column :: IsIdentity(e, c) && c != WarehouseId ==>
      if IsForeignKey(c) then Named(rows, ent, attrs, c) else Col(c) in attrs
  }

  /** A record is skipped exactly when it supplies nothing or lacks a required identity value.
      Otherwise it asks for the reading of every mapped data column and for the row of every
      reference that names one, and for nothing else. */
  lemma PlanMeans(f: Feed, rows: seq<Row>, line: Line)
    requires UniqueKeys(rows)
    ensures var e, attrs, plan := line.entity, Extracted(f.codec, line.record, line.ms), PlanOf(f, rows, line);
            && (plan.Some? <==> attrs != map[] && Complete(rows, f.ent, e, attrs))
            && (plan.Some? ==> forall c: Column ::
                  if IsForeignKey(c)
                  then && (c in plan.value <==> Refers(e, c) && Named(rows, f.ent, attrs, c))
                       && (forall i: Id :: c in plan.value && Names(rows, f.ent, attrs, c, i) ==>
                             plan.value[c] == Ref(i))
                  else && (c in plan.value <==> HasData(e, c) && Col(c) in attrs)
                       && (c in plan.value ==> plan.value[c] == Coerce(f.codec, c, attrs[Col(c)])))
  {
    var e, attrs := line.entity, Extracted(f.codec, line.record, line.ms);
    var fks := ForeignKeys(e, MastersOf(rows, f.ent, e, attrs));
    forall c: Column
      ensures c in fks <==> IsForeignKey(c) && Refers(e, c) && Named(rows, f.ent, attrs, c)
      ensures forall i: Id :: c in fks && Names(rows, f.ent, attrs, c, i) ==> fks[c] == i
      ensures IsForeignKey(c) && IsIdentity(e, c) ==> Refers(e, c)
    {
      ForeignKeysMean(rows, f.ent, e, attrs, c);
      ReferencesMatch(e, c);
    }
    IdentifiedMeans(rows, f.ent, e, attrs, fks);
    SuppliedMeans(f.codec, e, attrs, fks);
  }

  lemma IdentifiedMeans(rows: seq<Row>, ent: Id, e: Entity, attrs: map<Attr, string>, fks: map<Column, Id>)
    requires forall c: Column :: c in fks <==> IsForeignKey(c) && Refers(e, c) && Named(rows, ent, attrs, c)
    requires forall c: Column :: IsForeignKey(c) && IsIdentity(e, c) ==> Refers(e, c)
    ensures Identified(e, attrs, fks) <==> Complete(rows, ent, e, attrs)
  {
  }

  lemma SuppliedMeans(codec: Codec, e: Entity, attrs: map<Attr, string>, fks: map<Column, Id>)
    requires forall c: Column :: c in fks ==> IsForeignKey(c)
    ensures forall c: Column ::
              var supplied := Supplied(codec, e, attrs, fks);
              if IsForeignKey(c)
              then (c in supplied <==> c in fks) && (c in fks ==> supplied[c] == Ref(fks[c]))
              else && (c in supplied <==> HasData(e, c) && Col(c) in attrs)
                   && (c in supplied ==> supplied[c] == Coerce(codec, c, attrs[Col(c)]))
  {
  }

  // ---- what an upsert leaves ---------------------------------------------------------------------------

  /** A supplied value as its column keeps it. */
  function Kept(v: Value): Value {
    match v case Num(r) => Num(Round4(r)) case _ => v
  }

  /** The row under the key, freshly read: an existing row keeps its identity, and every column the
      record does not supply; a new one takes defaults for those. */
  ghost predicate UpsertLeaves(f: Feed, e: Entity, supplied: map<Column, Value>, rows: seq<Row>, later: seq<Row>,
                               i: Id) {
    && i < |later| && i <= |rows| && |later| == (if i < |rows| then |rows| else |rows| + 1)
    && (forall j :: 0 <= j < |rows| && j != i ==> later[j] == rows[j])
    && var r := later[i];
       && r.entity == e && r.ent == f.ent && r.source == f.source && r.fetchedAt == f.fetchedAt
       && r.observability.Fresh?
       && if i < |rows| then
            && r.initial == rows[i].initial && r.createdAt == rows[i].createdAt && r.rank == rows[i].rank
            && forall c: Column ::
                 Cell(r.cols, c) ==
                 if c in supplied && !IsIdentity(e, c) then Kept(supplied[c]) else Cell(rows[i].cols, c)
          else
            && r.initial == r.cols && r.createdAt == f.now
            && forall c: Column :: HasColumn(e, c) ==>
                 Cell(r.cols, c) ==
                 if c in supplied && !supplied[c].Null? then Kept(supplied[c]) else DefaultOf(e, c)
  }

  lemma UpsertMeans(f: Feed, e: Entity, supplied: map<Column, Value>, rows: seq<Row>)
    requires Upserted(f, e, supplied, rows).Some?
    ensures var found := Find(rows, e, f.ent, KeyOf(e, supplied));
            UpsertLeaves(f, e, supplied, rows, Upserted(f, e, supplied, rows).value.rows,
                         if found.Some? then found.value else |rows|)
  {
    match Find(rows, e, f.ent, KeyOf(e, supplied))
    case None =>
    case Some(i) =>
      forall c: Column
        ensures Cell(rows[i].cols + Written(e, supplied), c) ==
                if c in supplied && !IsIdentity(e, c) then Kept(supplied[c]) else Cell(rows[i].cols, c)
      {
      }
  }

  // ---- what a signal is about --------------------------------------------------------------------------

  predicate Differs(supplied: map<Column, Value>, r: Row, c: Column) {
    c in supplied && Cell(r.cols, c) != supplied[c]
  }

  /** The changes of stored data that are signalled, by the table they happen in. */
  predicate Signalled(kind: SignalType, e: Entity, supplied: map<Column, Value>, r: Row) {
    match kind
    case StockChange => e.StockLevel? && Differs(supplied, r, Quantity)
    case DemandChange => e.ProductionDemand? && Differs(supplied, r, Quantity)
    case PriceChange => e.Price? && Differs(supplied, r, UnitPrice)
    case LeadTimeChange => e.LeadTime? && Differs(supplied, r, Days)
    case QualityIssue => e.QualityRecord? && Differs(supplied, r, DefectRate)
  }

  /** An update emits a signal exactly when it changes stock, demand, a price, a lead time or a
      defect rate, and of that kind. */
  lemma SignalMeans(f: Feed, e: Entity, rows: seq<Row>, i: Id, supplied: map<Column, Value>, kind: SignalType)
    requires i < |rows|
    ensures var s := Diff(f, e, rows, i, supplied);
            s.Some? && s.value.kind == kind <==> Signalled(kind, e, supplied, rows[i])
  {
  }

  // ---- the tables, column by column ----------------------------------------------------------------------

  /** The columns of the upsert key of each table. */
  predicate Identifies(c: Column, e: Entity) {
    match c
    case Sku => e.Item?
    case Code => e.Warehouse? || e.Supplier?
    case ExternalRef => e.PurchaseOrder?
    case ItemId => !(e.Item? || e.Warehouse? || e.Supplier? || e.PurchaseOrder?)
    case SupplierId => e.ItemSupplier? || e.Price? || e.LeadTime? || e.QualityRecord?
    case WarehouseId => e.StockLevel? || e.Consumption?
    case NeedBy => e.ProductionDemand?
    case AsOf => e.QualityRecord?
    case _ => false
  }

  /** The tables that a column which is no reference belongs to. */
  predicate StoredIn(c: DataColumn, e: Entity) {
    match c
    case Name => e.Item? || e.Warehouse? || e.Supplier?
    case Code => e.Warehouse? || e.Supplier?
    case Quantity => e.StockLevel? || e.Consumption? || e.ProductionDemand? || e.PurchaseOrder?
    case UnitPrice => e.Price? || e.PurchaseOrder?
    case AsOf => e.StockLevel? || e.LeadTime? || e.QualityRecord?
    case Sku => e.Item?
    case Category => e.Item?
    case Unit => e.Item?
    case IsActive => e.Item?
    case Location => e.Warehouse?
    case IsApproved => e.Supplier?
    case Notes => e.Supplier?
    case Preferred => e.ItemSupplier?
    case MinQuantity => e.StockLevel?
    case Currency => e.Price?
    case ValidFrom => e.Price?
    case ValidTo => e.Price?
    case Days => e.LeadTime?
    case PeriodStart => e.Consumption?
    case PeriodEnd => e.Consumption?
    case NeedBy => e.ProductionDemand?
    case SourceRef => e.ProductionDemand?
    case DefectRate => e.QualityRecord?
    case Note => e.QualityRecord?
    case _ => e.PurchaseOrder?
  }

  /** The columns of a table that are not null. */
  predicate NeverNull(e: Entity, c: Column) {
    match e
    case Item => c.Sku? || c.Name? || c.IsActive?
    case Warehouse => c.Code? || c.Name?
    case Supplier => c.Code? || c.Name? || c.IsApproved? || c.Notes?
    case ItemSupplier => c.ItemId? || c.SupplierId? || c.Preferred?
    case StockLevel => c.ItemId? || c.Quantity?
    case Price => c.ItemId? || c.SupplierId? || c.UnitPrice?
    case LeadTime => c.ItemId? || c.SupplierId? || c.Days?
    case Consumption => c.ItemId? || c.Quantity?
    case ProductionDemand => c.ItemId? || c.Quantity?
    case QualityRecord => c.ItemId? || c.Note?
    case PurchaseOrder => c.ExternalRef? || c.Quantity? || c.Status? || c.Origin?
  }

  lemma IdentityIs(e: Entity, c: Column)
    ensures IsIdentity(e, c) <==> Identifies(c, e)
  {
  }

  lemma ColumnsAre(e: Entity, c: DataColumn)
    ensures HasData(e, c) <==> StoredIn(c, e)
  {
  }

  lemma NotNullIs(e: Entity, c: Column)
    requires HasColumn(e, c)
    ensures NotNull(e, c) <==> NeverNull(e, c)
  {
  }

  /** The database takes a value unless it is a null that the column forbids, a number of more than
      fourteen digits, a status, origin or currency that its check refuses. */
  lemma AcceptsMeans(e: Entity, c: Column, v: Value)
    requires HasColumn(e, c)
    ensures Accepts(e, c, v) <==>
              && (v.Null? ==> !NeverNull(e, c))
              && (v.Num? ==> -100_000_000_000_000.0 < Round4(v.r) < 100_000_000_000_000.0)
              && (v.Text? && c.Status? ==> v.s in {"open", "received", "cancelled"})
              && (v.Text? && c.Origin? ==> v.s in {"external", "smart_procurement"})
              && (v.Text? && c.Currency? ==> |v.s| <= 3)
  {
    NotNullIs(e, c);
  }

  // ---- what a batch counts -----------------------------------------------------------------------------

  /** The lines of an entity that were upserted, each at its place in the batch. */
  function Upserts(f: Feed, p: Progress, lines: seq<Line>, e: Entity): nat {
    if lines == [] then 0
    else
      var n := |lines| - 1;
      Upserts(f, p, lines[..n], e)
      + match Fold(Reader(f), p, lines[..n])
        case None => 0
        case Some(q) => if lines[n].entity == e && PlanOf(f, q.rows, lines[n]).Some? then 1 else 0
  }

  function CountOf(n: Counters, e: Entity): nat {
    if e in n.upserts then n.upserts[e] else 0
  }

  lemma StepCounts(f: Feed, p: Progress, line: Line, e: Entity)
    requires Step(f, p, line).Some?
    ensures CountOf(Step(f, p, line).value.counts, e) ==
            CountOf(p.counts, e) + if line.entity == e && PlanOf(f, p.rows, line).Some? then 1 else 0
  {
  }

  /** The reported number of upserts of an entity is the number of its records that were not
      skipped, whether they inserted or updated. */
  lemma {:induction false} UpsertsAreCounted(f: Feed, p: Progress, lines: seq<Line>, e: Entity)
    requires Fold(Reader(f), p, lines).Some?
    ensures CountOf(Fold(Reader(f), p, lines).value.counts, e) == CountOf(p.counts, e) + Upserts(f, p, lines, e)
  {
    if lines != [] {
      var n := |lines| - 1;
      UpsertsAreCounted(f, p, lines[..n], e);
      StepCounts(f, Fold(Reader(f), p, lines[..n]).value, lines[n], e);
    }
  }

  // ---- in which order a batch is read ------------------------------------------------------------------

  /** Every record as one entity, in the order of the records. */
  function EveryRecord(e: Entity, ms: seq<Mapping>, records: seq<Record>): seq<Line> {
    if records == [] then [] else [Line(e, ms, records[0])] + EveryRecord(e, ms, records[1..])
  }

  /** All records as one entity; none without mappings of it. */
  function ReadAs(ms: seq<Mapping>, records: seq<Record>): Entity -> seq<Line> {
    (e: Entity) => if Own(ms, e) == [] then [] else EveryRecord(e, Own(ms, e), records)
  }

  lemma {:induction false} EveryRecordIs(e: Entity, ms: seq<Mapping>, records: seq<Record>)
    ensures EntityLines(e, ms, records) == EveryRecord(e, ms, records)
  {
    if records != [] {
      EveryRecordIs(e, ms, records[1..]);
      assert EntityLines(e, ms, records) == [Line(e, ms, records[0])] + EntityLines(e, ms, records[1..]);
    }
  }

  lemma LinesOfIsReadAs(ms: seq<Mapping>, records: seq<Record>, e: Entity)
    ensures LinesOf(ms, records, e) == ReadAs(ms, records)(e)
  {
    ForEntityIsOwn(ms, e);
    EveryRecordIs(e, Own(ms, e), records);
  }

  lemma {:induction false} LinesAreFlat(ms: seq<Mapping>, records: seq<Record>, order: seq<Entity>)
    ensures Lines(ms, records, order) == FlatMap(ReadAs(ms, records), order)
  {
    if order != [] {
      var n := |order| - 1;
      LinesAreFlat(ms, records, order[..n]);
      LinesOfIsReadAs(ms, records, order[n]);
    }
  }

  /** A batch is read entity by entity in the given order, and as each entity record by record. */
  lemma LinesAreInOrder(ms: seq<Mapping>, records: seq<Record>, order: seq<Entity>)
    ensures Lines(ms, records, order) == InTurn(ReadAs(ms, records), order)
  {
    LinesAreFlat(ms, records, order);
    FlatMapInTurn(ReadAs(ms, records), order);
  }

  // ---- what a synchronisation leaves -------------------------------------------------------------------

  /** The items that signals name. */
  function ItemsIn(signals: seq<Signal>): set<Id> {
    set s | s in signals && s.item.Some? :: s.item.value
  }

  lemma ItemsInMore(signals: seq<Signal>, s: Signal)
    ensures ItemsIn(signals + [s]) == ItemsIn(signals) + if s.item.Some? then {s.item.value} else {}
  {
    forall x
      ensures x in ItemsIn(signals + [s]) <==> x in ItemsIn(signals) || s.item == Some(x)
    {
      if s.item == Some(x) {
        assert s in signals + [s];
      }
      if x in ItemsIn(signals) {
        var t :| t in signals && t.item == Some(x);
        assert t in signals + [s];
      }
    }
  }

  /** The counters say how many signals were logged since, and which items those name. */
  ghost predicate Tallied(p: Progress, q: Progress) {
    && p.signals <= q.signals
    && q.counts.created == p.counts.created + |q.signals| - |p.signals|
    && q.counts.touched == p.counts.touched + ItemsIn(q.signals[|p.signals|..])
  }

  lemma StepLogs(f: Feed, p: Progress, line: Line) returns (s: Option<Signal>)
    requires Step(f, p, line).Some?
    ensures var q := Step(f, p, line).value;
            && q.signals == Log(p.signals, s)
            && q.counts.created == p.counts.created + (if s.Some? then 1 else 0)
            && q.counts.touched == p.counts.touched + (if s.Some? then ItemsIn([s.value]) else {})
  {
    var plan := PlanOf(f, p.rows, line);
    s := if plan.None? then None else Upserted(f, line.entity, plan.value, p.rows).value.signal;
    if s.Some? {
      ItemsInMore([], s.value);
      assert [] + [s.value] == [s.value];
    }
  }

  lemma TalliedMore(p: Progress, q: Progress, r: Progress, s: Signal)
    requires Tallied(p, q) && r.signals == q.signals + [s]
    requires r.counts.created == q.counts.created + 1 && r.counts.touched == q.counts.touched + ItemsIn([s])
    ensures Tallied(p, r)
  {
    var n := |p.signals|;
    ItemsInMore(q.signals[n..], s);
    ItemsInMore([], s);
    assert [] + [s] == [s];
    assert r.signals[n..] == q.signals[n..] + [s];
  }

  lemma StepTallies(f: Feed, p: Progress, q: Progress, line: Line)
    requires Tallied(p, q) && Step(f, q, line).Some?
    ensures Tallied(p, Step(f, q, line).value)
  {
    var s := StepLogs(f, q, line);
    if s.Some? {
      TalliedMore(p, q, Step(f, q, line).value, s.value);
    }
  }

  lemma {:induction false} BatchTallies(f: Feed, p: Progress, lines: seq<Line>)
    requires Fold(Reader(f), p, lines).Some?
    ensures Tallied(p, Fold(Reader(f), p, lines).value)
  {
    if lines == [] {
      assert ItemsIn(p.signals[|p.signals|..]) == {};
    } else {
      var n := |lines| - 1;
      BatchTallies(f, p, lines[..n]);
      StepTallies(f, p, Fold(Reader(f), p, lines[..n]).value, lines[n]);
    }
  }

  /** The row was read by this synchronisation: it is the enterprise's, and now of this source. */
  predicate ReadBy(f: Feed, r: Row) {
    r.ent == f.ent && r.source == f.source && r.fetchedAt == f.fetchedAt && r.observability.Fresh?
  }

  predicate LoggedBy(f: Feed, s: Signal) {
    s.ent == f.ent && s.source == f.source && s.observedAt == f.fetchedAt
  }

  /** Every row is as it was or was read by this synchronisation, which logged the new signals. */
  ghost predicate Stamped(f: Feed, p: Progress, q: Progress) {
    && |p.rows| <= |q.rows| && p.signals <= q.signals
    && (forall i: Id :: i < |q.rows| ==> (i < |p.rows| && q.rows[i] == p.rows[i]) || ReadBy(f, q.rows[i]))
    && (forall k: Id :: |p.signals| <= k < |q.signals| ==> LoggedBy(f, q.signals[k]))
  }

  lemma UpsertStamps(f: Feed, q: Progress, line: Line)
    requires Step(f, q, line).Some?
    ensures Stamped(f, q, Step(f, q, line).value)
  {
    var plan := PlanOf(f, q.rows, line);
    if plan.Some? {
      UpsertMeans(f, line.entity, plan.value, q.rows);
    }
  }

  lemma StampedOn(f: Feed, p: Progress, q: Progress, r: Progress)
    requires Stamped(f, p, q) && Stamped(f, q, r)
    ensures Stamped(f, p, r)
  {
    forall k: Id | |p.signals| <= k < |r.signals|
      ensures LoggedBy(f, r.signals[k])
    {
      if k < |q.signals| {
        assert r.signals[k] == q.signals[k];
      }
    }
  }

  lemma {:induction false} BatchStamps(f: Feed, p: Progress, lines: seq<Line>)
    requires Fold(Reader(f), p, lines).Some?
    ensures Stamped(f, p, Fold(Reader(f), p, lines).value)
  {
    if lines != [] {
      var n := |lines| - 1;
      var q := Fold(Reader(f), p, lines[..n]).value;
      BatchStamps(f, p, lines[..n]);
      UpsertStamps(f, q, lines[n]);
      StampedOn(f, p, q, Step(f, q, lines[n]).value);
    }
  }

  lemma FreshBatchTallies(f: Feed, rows: seq<Row>, signals: seq<Signal>, lines: seq<Line>)
    requires Fold(Reader(f), Start(rows, signals), lines).Some?
    ensures var q := Fold(Reader(f), Start(rows, signals), lines).value;
            && signals <= q.signals
            && (q.counts.created > 0 <==> q.signals != signals)
            && q.counts.touched == ItemsIn(q.signals[|signals|..])
  {
    BatchTallies(f, Start(rows, signals), lines);
  }

  lemma SourceGapClosed(gaps: seq<Gap>, ent: Id, source: Id, now: int)
    ensures OneOpenPerKey(gaps) ==> forall g: Id ::
              g < |Closed(gaps, SourceGap(ent, source), now)|
              && Closed(gaps, SourceGap(ent, source), now)[g].key ==
                 GapKey(ent, SourceScope, SourceRow(source), SourceUnavailable) ==>
                Closed(gaps, SourceGap(ent, source), now)[g].closedAt.Some?
  {
    if OneOpenPerKey(gaps) {
      var key := SourceGap(ent, source);
      OpenCloseEffect(gaps, key, key, now);
      forall g: Id | g < |Closed(gaps, key, now)| && Closed(gaps, key, now)[g].key == key
        ensures Closed(gaps, key, now)[g].closedAt.Some?
      {
        assert !IsOpen(Closed(gaps, key, now), key, g);
      }
    }
  }

  /** A synchronisation that returns marks its source healthy and closes its gap, logs its
      signals after the others and, if there are any, enqueues one recomputation of just the items
      they name, due at once. */
  lemma SyncLeaves(db: Db, ent: Id, source: Id, intake: Intake, now: int)
    requires SyncedDb(db, ent, source, intake, now).Some?
    ensures var after := SyncedDb(db, ent, source, intake, now).value;
            && source < |db.sources| && db.sources[source].ent == ent && intake.fetch.Fetched?
            && after.sources == db.sources[source := db.sources[source].(
                 health := Available, lastError := None, lastSuccessAt := Some(intake.fetch.fetchedAt),
                 lastCheckAt := Some(now))]
            && db.signals <= after.signals
            && after.jobs == (if after.signals == db.signals then db.jobs else db.jobs + [
                 Job(RecomputeAggregates(ent, ItemsIn(after.signals[|db.signals|..])), now, Pending, 0, 5,
                     None, None, None, |after.signals|)])
            && after == db.(rows := after.rows, signals := after.signals, sources := after.sources, gaps := after.gaps,
                            jobs := after.jobs)
            && (OneOpenPerKey(db.gaps) ==> forall g: Id ::
                  g < |after.gaps|
                  && after.gaps[g].key == GapKey(ent, SourceScope, SourceRow(source), SourceUnavailable) ==>
                    after.gaps[g].closedAt.Some?)
  {
    SourceGapClosed(db.gaps, ent, source, now);
    FreshBatchTallies(FeedOf(ent, source, intake, now), db.rows, db.signals,
                      AllLines(intake.mappings, intake.fetch.records));
  }

  /** Every row it leaves is as it was, or is the enterprise's and carries the source and the time of
      the fetch; so do the signals it logs. */
  lemma SyncStamps(db: Db, ent: Id, source: Id, intake: Intake, now: int)
    requires SyncedDb(db, ent, source, intake, now).Some?
    ensures var after := SyncedDb(db, ent, source, intake, now).value;
            && intake.fetch.Fetched? && |db.rows| <= |after.rows| && db.signals <= after.signals
            && (forall i: Id :: i < |after.rows| ==>
                  || (i < |db.rows| && after.rows[i] == db.rows[i])
                  || (after.rows[i].ent == ent && after.rows[i].source == source
                      && after.rows[i].fetchedAt == intake.fetch.fetchedAt && after.rows[i].observability.Fresh?))
            && (forall k: Id :: |db.signals| <= k < |after.signals| ==>
                  after.signals[k].ent == ent && after.signals[k].source == source
                  && after.signals[k].observedAt == intake.fetch.fetchedAt)
  {
    var f, lines := FeedOf(ent, source, intake, now), AllLines(intake.mappings, intake.fetch.records);
    BatchStamps(f, Start(db.rows, db.signals), lines);
    var q := Fold(Reader(f), Start(db.rows, db.signals), lines).value;
    forall i: Id | i < |q.rows|
      ensures (i < |db.rows| && q.rows[i] == db.rows[i]) || ReadBy(f, q.rows[i])
    {
    }
    forall k: Id | |db.signals| <= k < |q.signals|
      ensures LoggedBy(f, q.signals[k])
    {
    }
  }
}
