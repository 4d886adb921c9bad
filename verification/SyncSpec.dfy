/** What one synchronisation of a source means (src/app/integration/sync.py), as a fold of
    record upserts. References are resolved by a fresh lookup here; the method that keeps
    the source's lookup cache is in module Sync. */
module SyncSpec {
  import opened Basics
  import opened Folds
  import opened Tables
  import opened Schema
  import opened Gaps
  import opened JobQueue

  /** Text conversions, taken as given total functions: `transform` applies a mapping's
      transform, the others answer None (or false) for text they cannot read. */
  datatype Codec = Codec(
    transform: (Id, string) -> string,
    decimal: string -> Option<real>,
    day: string -> Option<int>,
    instant: string -> Option<int>,
    truth: string -> bool)

  /** A raw record: source field path to text; None stands for a null value. */
  type Record = map<string, Option<string>>

  datatype Mapping = Mapping(path: string, entity: Entity, attr: Attr, transform: Option<Id>)

  /** Whose data is fetched, from where and when, how its text is read, the time of the
      transaction, and where the database lists the rows it inserts. */
  datatype Feed = Feed(ent: Id, source: Id, fetchedAt: int, codec: Codec, now: int, ranking: (Entity, Key) -> int)

  // ---- extraction ------------------------------------------------------------------------

  function FieldText(codec: Codec, record: Record, m: Mapping): Option<string> {
    if m.path !in record || record[m.path].None? then None
    else
      var raw := record[m.path].value;
      var text := if m.transform.Some? then codec.transform(m.transform.value, raw) else raw;
      if text == "" then None else Some(text)
  }

  /** Attribute values of a record; of several mappings to one attribute the last wins. */
  function Extracted(codec: Codec, record: Record, ms: seq<Mapping>): map<Attr, string> {
    if ms == [] then map[]
    else
      var out := Extracted(codec, record, ms[..|ms| - 1]);
      var m := ms[|ms| - 1];
      match FieldText(codec, record, m)
      case None => out
      case Some(text) => out[m.attr := text]
  }

  function ForEntity(ms: seq<Mapping>, e: Entity): seq<Mapping> {
    if ms == [] then []
    else
      var rest := ForEntity(ms[..|ms| - 1], e);
      if ms[|ms| - 1].entity == e then rest + [ms[|ms| - 1]] else rest
  }

  // ---- lookup ----------------------------------------------------------------------------

  predicate HasKey(r: Row, e: Entity, ent: Id, key: Key) {
    r.entity == e && r.ent == ent && KeyOf(e, r.cols) == key
  }

  /** The row a single-row lookup by key answers. */
  function Find(rows: seq<Row>, e: Entity, ent: Id, key: Key): (r: Option<Id>)
    ensures r.Some? ==> r.value < |rows| && HasKey(rows[r.value], e, ent, key)
    ensures r.None? ==> forall i :: 0 <= i < |rows| ==> !HasKey(rows[i], e, ent, key)
  {
    if rows == [] then None
    else
      var n := |rows| - 1;
      var earlier := Find(rows[..n], e, ent, key);
      if earlier.Some? then earlier
      else if HasKey(rows[n], e, ent, key) then Some(n)
      else
        assert forall i :: 0 <= i < n ==> rows[i] == rows[..n][i];
        None
  }

  /** At most one row per table, enterprise and key. */
  ghost predicate UniqueKeys(rows: seq<Row>) {
    forall i, j :: 0 <= i < j < |rows| && rows[i].entity == rows[j].entity && rows[i].ent == rows[j].ent ==>
      KeyOf(rows[i].entity, rows[i].cols) != KeyOf(rows[j].entity, rows[j].cols)
  }

  // ---- resolving references ----------------------------------------------------------------

  /** The rows a record's references answer; None where it has none or it finds no row. */
  datatype Masters = Masters(item: Option<Id>, supplier: Option<Id>, warehouse: Option<Id>)

  function MasterOf(m: Masters, fk: Column): Option<Id> {
    match fk
    case ItemId => m.item
    case SupplierId => m.supplier
    case WarehouseId => m.warehouse
    case _ => None
  }

  function Refer(rows: seq<Row>, ent: Id, e: Entity, attrs: map<Attr, string>, fk: Column): (r: Option<Id>)
    requires IsForeignKey(fk)
  {
    if Refers(e, fk) && RefAttr(fk) in attrs
    then Find(rows, RefTarget(fk), ent, MasterKey(attrs[RefAttr(fk)]))
    else None
  }

  function MastersOf(rows: seq<Row>, ent: Id, e: Entity, attrs: map<Attr, string>): Masters {
    Masters(Refer(rows, ent, e, attrs, ItemId),
            Refer(rows, ent, e, attrs, SupplierId),
            Refer(rows, ent, e, attrs, WarehouseId))
  }

  // ---- planning one upsert -------------------------------------------------------------------

  function Coerce(codec: Codec, c: DataColumn, text: string): Value {
    match TypeOf(c)
    case Number => (match codec.decimal(text) case Some(r) => Num(r) case None => Null)
    case Calendar => (match codec.day(text) case Some(d) => Day(d) case None => Null)
    case Instant => (match codec.instant(text) case Some(t) => Time(t) case None => Null)
    case Boolean => Flag(codec.truth(text))
    case Varchar => Text(text)
  }

  /** The foreign keys of a record: each of its references that answers a row. */
  function ForeignKeys(e: Entity, m: Masters): map<Column, Id> {
    map c: Column | Refers(e, c) && MasterOf(m, c).Some? :: MasterOf(m, c).value
  }

  /** Every identity column the record must supply is there. */
  predicate Identified(e: Entity, attrs: map<Attr, string>, fks: map<Column, Id>) {
    forall c: Column :: IsRequired(e, c) ==> if IsForeignKey(c) then c in fks else Col(c) in attrs
  }

  /** The typed values a record supplies: its data columns and its foreign keys. */
  function Supplied(codec: Codec, e: Entity, attrs: map<Attr, string>, fks: map<Column, Id>): map<Column, Value> {
    (map c: Column | HasData(e, c) && !IsForeignKey(c) && Col(c) in attrs :: Coerce(codec, c, attrs[Col(c)]))
    + (map c: Column | c in fks :: Ref(fks[c]))
  }

  /** What a record asks to upsert, or None when it is skipped. */
  function Plan(codec: Codec, e: Entity, attrs: map<Attr, string>, m: Masters): Option<map<Column, Value>> {
    var fks := ForeignKeys(e, m);
    if attrs == map[] || !Identified(e, attrs, fks) then None else Some(Supplied(codec, e, attrs, fks))
  }

  // ---- one upsert ----------------------------------------------------------------------------

  /** Column values of a new row: a missing or null value takes the column's default. */
  function Inserted(e: Entity, supplied: map<Column, Value>): map<Column, Value> {
    map c: Column | HasColumn(e, c) ::
      if Cell(supplied, c).Null? then DefaultOf(e, c) else Stored(Cell(supplied, c))
  }

  /** The columns an update writes; identity columns are never overwritten. */
  function Written(e: Entity, supplied: map<Column, Value>): map<Column, Value> {
    map c: Column | c in supplied && !IsIdentity(e, c) :: Stored(supplied[c])
  }

  predicate Storable(e: Entity, cols: map<Column, Value>) {
    forall c: Column :: c in cols ==> Accepts(e, c, cols[c])
  }

  /** The signal of an update: the watched column is supplied with a different value. */
  function Diff(f: Feed, e: Entity, rows: seq<Row>, i: Id, supplied: map<Column, Value>): Option<Signal>
    requires i < |rows|
  {
    match Watched(e)
    case None => None
    case Some((c, kind)) =>
      if c !in supplied || Cell(rows[i].cols, c) == supplied[c] then None
      else
        var item := Cell(supplied, ItemId);
        var supplier := Cell(supplied, SupplierId);
        Some(Signal(f.ent, f.source, kind,
                    if item.Ref? then Some(item.id) else None,
                    if supplier.Ref? then Some(supplier.id) else None,
                    e, Cell(rows[i].cols, c), supplied[c], f.fetchedAt, i))
  }

  function NewRow(f: Feed, e: Entity, supplied: map<Column, Value>): Row {
    var cols := Inserted(e, supplied);
    Row(e, f.ent, cols, cols, Fresh, f.source, f.fetchedAt, f.now, f.ranking(e, KeyOf(e, supplied)))
  }

  function UpdatedRow(f: Feed, e: Entity, r: Row, supplied: map<Column, Value>): Row {
    r.(cols := r.cols + Written(e, supplied), observability := Fresh, source := f.source, fetchedAt := f.fetchedAt)
  }

  /** The rows after one upsert, and the signal it emits; the first version of a row is a
      baseline and emits none. */
  datatype Upsertion = Upsertion(rows: seq<Row>, signal: Option<Signal>)

  /** Inserting or updating one row; None when the database refuses it. */
  function Upserted(f: Feed, e: Entity, supplied: map<Column, Value>, rows: seq<Row>): Option<Upsertion> {
    match Find(rows, e, f.ent, KeyOf(e, supplied))
    case None =>
      var row := NewRow(f, e, supplied);
      if Storable(e, row.cols) then Some(Upsertion(rows + [row], None)) else None
    case Some(i) =>
      if Storable(e, Written(e, supplied))
      then Some(Upsertion(rows[i := UpdatedRow(f, e, rows[i], supplied)], Diff(f, e, rows, i, supplied)))
      else None
  }

  // ---- the whole batch -------------------------------------------------------------------------

  /** One record read as one entity through that entity's confirmed mappings. */
  datatype Line = Line(entity: Entity, ms: seq<Mapping>, record: Record)

  function PlanOf(f: Feed, rows: seq<Row>, line: Line): Option<map<Column, Value>> {
    var attrs := Extracted(f.codec, line.record, line.ms);
    Plan(f.codec, line.entity, attrs, MastersOf(rows, f.ent, line.entity, attrs))
  }

  /** What a synchronisation counts while it runs. */
  datatype Counters = Counters(upserts: map<Entity, nat>, created: nat, touched: set<Id>)

  /** Progress of a synchronisation. */
  datatype Progress = Progress(rows: seq<Row>, signals: seq<Signal>, counts: Counters)

  function Log(signals: seq<Signal>, s: Option<Signal>): seq<Signal> {
    if s.Some? then signals + [s.value] else signals
  }

  /** Both an insert and an update count as an upsert of their entity. */
  function Counted(e: Entity, s: Option<Signal>, n: Counters): Counters {
    Counters(n.upserts[e := (if e in n.upserts then n.upserts[e] else 0) + 1],
             if s.Some? then n.created + 1 else n.created,
             if s.Some? && s.value.item.Some? then n.touched + {s.value.item.value} else n.touched)
  }

  function Step(f: Feed, p: Progress, line: Line): Option<Progress> {
    match PlanOf(f, p.rows, line)
    case None => Some(p)
    case Some(supplied) =>
      match Upserted(f, line.entity, supplied, p.rows)
      case None => None
      case Some(u) => Some(Progress(u.rows, Log(p.signals, u.signal), Counted(line.entity, u.signal, p.counts)))
  }

  /** Reading one line, as a step of a fold. */
  function Reader(f: Feed): (Progress, Line) -> Option<Progress> {
    (p, line) => Step(f, p, line)
  }

  function EntityLines(e: Entity, ms: seq<Mapping>, records: seq<Record>): (lines: seq<Line>)
    ensures |lines| == |records|
  {
    seq(|records|, i requires 0 <= i < |records| => Line(e, ms, records[i]))
  }

  /** The whole batch read as one entity; an entity without mappings reads nothing. */
  function LinesOf(ms: seq<Mapping>, records: seq<Record>, e: Entity): seq<Line> {
    var own := ForEntity(ms, e);
    if own == [] then [] else EntityLines(e, own, records)
  }

  /** The lines of the given entities, entity by entity. */
  function Lines(ms: seq<Mapping>, records: seq<Record>, order: seq<Entity>): seq<Line> {
    if order == [] then []
    else Lines(ms, records, order[..|order| - 1]) + LinesOf(ms, records, order[|order| - 1])
  }

  function AllLines(ms: seq<Mapping>, records: seq<Record>): seq<Line> {
    Lines(ms, records, ENTITY_ORDER)
  }

  function Start(rows: seq<Row>, signals: seq<Signal>): Progress {
    Progress(rows, signals, Counters(map[], 0, {}))
  }

  /** The data a synchronisation of `records` leaves, or None when it raises. */
  function Synced(f: Feed, ms: seq<Mapping>, records: seq<Record>, rows: seq<Row>,
                  signals: seq<Signal>): Option<Progress> {
    Fold(Reader(f), Start(rows, signals), AllLines(ms, records))
  }

  // ---- the transaction -------------------------------------------------------------------------

  datatype Fetch = Fetched(records: seq<Record>, fetchedAt: int) | FetchFailed(error: string)

  /** What a synchronisation takes from outside: the fetched batch, the source's confirmed
      mappings in the order the database lists them, text conversions, and row places. */
  datatype Intake = Intake(fetch: Fetch, mappings: seq<Mapping>, codec: Codec, ranking: (Entity, Key) -> int)

  function FeedOf(ent: Id, source: Id, intake: Intake, now: int): Feed
    requires intake.fetch.Fetched?
  {
    Feed(ent, source, intake.fetch.fetchedAt, intake.codec, now, intake.ranking)
  }

  function SourceGap(ent: Id, source: Id): GapKey {
    GapKey(ent, SourceScope, SourceRow(source), SourceUnavailable)
  }

  predicate Owns(db: Db, ent: Id, source: Id) {
    source < |db.sources| && db.sources[source].ent == ent
  }

  /** The database after a successful synchronisation, or None when it raises: unknown
      source, failed fetch, or a row the database refuses. */
  function SyncedDb(db: Db, ent: Id, source: Id, intake: Intake, now: int): Option<Db> {
    if !Owns(db, ent, source) || intake.fetch.FetchFailed? then None
    else
      match Synced(FeedOf(ent, source, intake, now), intake.mappings, intake.fetch.records, db.rows, db.signals)
      case None => None
      case Some(p) =>
        var src := db.sources[source].(health := Available, lastError := None,
                                       lastSuccessAt := Some(intake.fetch.fetchedAt), lastCheckAt := Some(now));
        var synced := db.(rows := p.rows, signals := p.signals,
                          sources := db.sources[source := src],
                          gaps := Closed(db.gaps, SourceGap(ent, source), now));
        Some(if p.counts.created > 0 then Enqueued(synced, RecomputeAggregates(ent, p.counts.touched), now) else synced)
  }
}
