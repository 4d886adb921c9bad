/** Synchronising the same batch twice (src/app/integration/sync.py:322-418): the second run
    leaves every data column alone, and exactly when it is silent, or raises. */
module Resync {
  import opened Basics
  import opened Folds
  import opened Tables
  import opened Schema
  import opened SyncSpec
  import opened SyncProps

  // ---- what a batch supplies ---------------------------------------------------------------

  /** Every supplied value of a not-null column could be read. */
  ghost predicate Readable(e: Entity, supplied: map<Column, Value>) {
    forall c: Column :: c in supplied && !IsIdentity(e, c) && NotNull(e, c) ==> !supplied[c].Null?
  }

  /** The watched value, if supplied, has at most four decimals. */
  ghost predicate Exact(e: Entity, supplied: map<Column, Value>) {
    match Watched(e)
    case None => true
    case Some((c, _)) => c in supplied ==> Stored(supplied[c]) == supplied[c]
  }

  ghost predicate LineReadable(f: Feed, rows: seq<Row>, line: Line) {
    var plan := PlanOf(f, rows, line);
    plan.Some? ==> Readable(line.entity, plan.value)
  }

  ghost predicate LineExact(f: Feed, rows: seq<Row>, line: Line) {
    var plan := PlanOf(f, rows, line);
    plan.Some? ==> Exact(line.entity, plan.value)
  }

  ghost predicate SameTarget(f: Feed, rows: seq<Row>, a: Line, b: Line) {
    var x, y := PlanOf(f, rows, a), PlanOf(f, rows, b);
    x.Some? && y.Some? && a.entity == b.entity && KeyOf(a.entity, x.value) == KeyOf(b.entity, y.value)
  }

  /** Records for one row supply equal values wherever both supply one. */
  ghost predicate Agree(f: Feed, rows: seq<Row>, lines: seq<Line>) {
    forall i, j :: 0 <= i < j < |lines| && SameTarget(f, rows, lines[i], lines[j]) ==>
      Consistent(lines[i].entity, PlanOf(f, rows, lines[i]).value, PlanOf(f, rows, lines[j]).value)
  }

  ghost predicate Consistent(e: Entity, x: map<Column, Value>, y: map<Column, Value>) {
    forall c: Column :: c in x && c in y && !IsIdentity(e, c) ==> Stored(x[c]) == Stored(y[c])
  }

  /** Lines of masters come before lines that refer to them. */
  ghost predicate MastersFirst(lines: seq<Line>) {
    forall i, j :: 0 <= i < j < |lines| && IsMaster(lines[j].entity) ==> IsMaster(lines[i].entity)
  }

  // ---- plans do not change once masters are read -------------------------------------------------

  ghost predicate SameLookups(rows: seq<Row>, later: seq<Row>, ent: Id) {
    forall e: Entity, key :: IsMaster(e) ==> Find(later, e, ent, key) == Find(rows, e, ent, key)
  }

  lemma PlanSame(f: Feed, rows: seq<Row>, later: seq<Row>, line: Line)
    requires IsMaster(line.entity) || SameLookups(rows, later, f.ent)
    ensures PlanOf(f, later, line) == PlanOf(f, rows, line)
  {
    var attrs := Extracted(f.codec, line.record, line.ms);
    forall fk | IsForeignKey(fk)
      ensures Refer(later, f.ent, line.entity, attrs, fk) == Refer(rows, f.ent, line.entity, attrs, fk)
    {
      assert IsMaster(RefTarget(fk));
    }
  }

  lemma DependentsKeepLookups(f: Feed, p: Progress, line: Line)
    requires DataInv(p.rows, p.signals) && Step(f, p, line).Some? && !IsMaster(line.entity)
    ensures SameLookups(p.rows, Step(f, p, line).value.rows, f.ent)
  {
    var later := Step(f, p, line).value.rows;
    StepKeepsData(f, p, line);
    forall e: Entity, key | IsMaster(e)
      ensures Find(later, e, f.ent, key) == Find(p.rows, e, f.ent, key)
    {
      if Find(p.rows, e, f.ent, key).Some? {
        FindStable(p.rows, later, e, f.ent, key);
      } else {
        forall i | 0 <= i < |later|
          ensures !HasKey(later[i], e, f.ent, key)
        {
          if i < |p.rows| {
            assert !HasKey(p.rows[i], e, f.ent, key);
          }
        }
      }
    }
  }

  // ---- a settled line ---------------------------------------------------------------------------

  /** The row a plan names exists and already holds whatever of the plan can be written. */
  ghost predicate Holds(f: Feed, rows: seq<Row>, e: Entity, supplied: map<Column, Value>) {
    var found := Find(rows, e, f.ent, KeyOf(e, supplied));
    && found.Some?
    && forall c: Column :: c in supplied && !IsIdentity(e, c) ==>
         && Accepts(e, c, Stored(supplied[c])) == (NotNull(e, c) ==> !supplied[c].Null?)
         && (Accepts(e, c, Stored(supplied[c])) ==> Cell(rows[found.value].cols, c) == Stored(supplied[c]))
  }

  ghost predicate Settled(f: Feed, rows: seq<Row>, line: Line) {
    var plan := PlanOf(f, rows, line);
    plan.Some? ==> Holds(f, rows, line.entity, plan.value)
  }

  lemma DefaultsOnlyWhereNeeded(e: Entity, c: Column)
    requires !NotNull(e, c)
    ensures DefaultOf(e, c) == Null
  {
  }

  lemma WrittenSettles(e: Entity, cols: map<Column, Value>, supplied: map<Column, Value>, c: Column)
    requires Storable(e, Written(e, supplied)) && c in supplied && !IsIdentity(e, c)
    ensures Accepts(e, c, Stored(supplied[c])) && (NotNull(e, c) ==> !supplied[c].Null?)
    ensures Cell(cols + Written(e, supplied), c) == Stored(supplied[c])
  {
    assert Accepts(e, c, Written(e, supplied)[c]);
  }

  lemma InsertedSettles(e: Entity, supplied: map<Column, Value>, c: Column)
    requires Typed(e, supplied) && Storable(e, Inserted(e, supplied)) && c in supplied && !IsIdentity(e, c)
    ensures Accepts(e, c, Stored(supplied[c])) == (NotNull(e, c) ==> !supplied[c].Null?)
    ensures Accepts(e, c, Stored(supplied[c])) ==> Cell(Inserted(e, supplied), c) == Stored(supplied[c])
  {
    assert Accepts(e, c, Inserted(e, supplied)[c]);
    if !NotNull(e, c) {
      DefaultsOnlyWhereNeeded(e, c);
    }
  }

  lemma UpsertSettles(f: Feed, e: Entity, supplied: map<Column, Value>, rows: seq<Row>, signals: seq<Signal>)
    requires DataInv(rows, signals) && Typed(e, supplied)
    requires Upserted(f, e, supplied, rows).Some?
    ensures Holds(f, Upserted(f, e, supplied, rows).value.rows, e, supplied)
  {
    var after := Upserted(f, e, supplied, rows).value.rows;
    UpsertKeepsData(f, e, supplied, rows, signals);
    var found := Find(rows, e, f.ent, KeyOf(e, supplied));
    var i := if found.Some? then found.value else |rows|;
    InsertedKey(e, supplied);
    if found.Some? {
      UpdatedKey(e, rows[i].cols, supplied);
    }
    FindIsThe(after, e, f.ent, KeyOf(e, supplied), i);
    forall c: Column | c in supplied && !IsIdentity(e, c)
      ensures Accepts(e, c, Stored(supplied[c])) == (NotNull(e, c) ==> !supplied[c].Null?)
      ensures Accepts(e, c, Stored(supplied[c])) ==> Cell(after[i].cols, c) == Stored(supplied[c])
    {
      if found.Some? {
        WrittenSettles(e, rows[i].cols, supplied, c);
      } else {
        InsertedSettles(e, supplied, c);
      }
    }
  }

  /** An upsert that agrees with a settled plan leaves it settled. */
  lemma UpsertKeepsSettled(f: Feed, e: Entity, supplied: map<Column, Value>, rows: seq<Row>, signals: seq<Signal>,
                           e': Entity, other: map<Column, Value>)
    requires DataInv(rows, signals) && Typed(e, supplied)
    requires Upserted(f, e, supplied, rows).Some?
    requires Holds(f, rows, e', other)
    requires e == e' && KeyOf(e, supplied) == KeyOf(e, other) ==> Consistent(e, other, supplied)
    ensures Holds(f, Upserted(f, e, supplied, rows).value.rows, e', other)
  {
    UpsertKeepsData(f, e, supplied, rows, signals);
    var after := Upserted(f, e, supplied, rows).value.rows;
    FindStable(rows, after, e', f.ent, KeyOf(e', other));
    var j := Find(rows, e', f.ent, KeyOf(e', other)).value;
    var found := Find(rows, e, f.ent, KeyOf(e, supplied));
    if found == Some(j) {
      forall c: Column | c in other && !IsIdentity(e, c) && Accepts(e, c, Stored(other[c]))
        ensures Cell(after[j].cols, c) == Stored(other[c])
      {
        WatchedCell(e, rows[j].cols, supplied, c);
      }
    }
  }

  lemma StepSettles(f: Feed, p: Progress, line: Line, earlier: Line)
    requires DataInv(p.rows, p.signals) && Step(f, p, line).Some?
    requires IsMaster(line.entity) ==> IsMaster(earlier.entity)
    requires earlier == line || (Settled(f, p.rows, earlier) && Agree(f, p.rows, [earlier, line]))
    ensures Settled(f, Step(f, p, line).value.rows, earlier)
  {
    var q := Step(f, p, line).value;
    if !IsMaster(line.entity) {
      DependentsKeepLookups(f, p, line);
    }
    PlanSame(f, p.rows, q.rows, earlier);
    var mine, plan := PlanOf(f, p.rows, line), PlanOf(f, p.rows, earlier);
    if mine.Some? && plan.Some? {
      var attrs := Extracted(f.codec, line.record, line.ms);
      PlanTyped(f.codec, line.entity, attrs, MastersOf(p.rows, f.ent, line.entity, attrs));
      if earlier == line {
        UpsertSettles(f, line.entity, mine.value, p.rows, p.signals);
      } else {
        if SameTarget(f, p.rows, earlier, line) {
          assert SameTarget(f, p.rows, [earlier, line][0], [earlier, line][1]);
        }
        UpsertKeepsSettled(f, line.entity, mine.value, p.rows, p.signals, earlier.entity, plan.value);
      }
    }
  }

  /** Reading `last` changes no plan of the lines that may come before it. */
  lemma PlansKept(f: Feed, q: Progress, last: Line, lines: seq<Line>)
    requires DataInv(q.rows, q.signals) && Step(f, q, last).Some?
    requires IsMaster(last.entity) ==> forall line :: line in lines ==> IsMaster(line.entity)
    ensures forall line :: line in lines ==> PlanOf(f, Step(f, q, last).value.rows, line) == PlanOf(f, q.rows, line)
  {
    if !IsMaster(last.entity) {
      DependentsKeepLookups(f, q, last);
    }
    forall line | line in lines
      ensures PlanOf(f, Step(f, q, last).value.rows, line) == PlanOf(f, q.rows, line)
    {
      PlanSame(f, q.rows, Step(f, q, last).value.rows, line);
    }
  }

  lemma AgreeBefore(f: Feed, rows: seq<Row>, later: seq<Row>, lines: seq<Line>)
    requires Agree(f, later, lines)
    requires forall line :: line in lines ==> PlanOf(f, later, line) == PlanOf(f, rows, line)
    ensures Agree(f, rows, lines)
  {
  }

  lemma AgreePair(f: Feed, rows: seq<Row>, lines: seq<Line>, earlier: Line, last: Line)
    requires Agree(f, rows, lines + [last]) && earlier in lines
    ensures Agree(f, rows, [earlier, last]) && Agree(f, rows, lines)
  {
    var all := lines + [last];
    var i :| 0 <= i < |lines| && lines[i] == earlier;
    assert all[i] == earlier && all[|lines|] == last;
    forall a, b | 0 <= a < b < |lines| && SameTarget(f, rows, lines[a], lines[b])
      ensures Consistent(lines[a].entity, PlanOf(f, rows, lines[a]).value, PlanOf(f, rows, lines[b]).value)
    {
      assert SameTarget(f, rows, all[a], all[b]);
    }
  }

  lemma SettlesMore(f: Feed, q: Progress, init: seq<Line>, last: Line, line: Line)
    requires DataInv(q.rows, q.signals) && Step(f, q, last).Some?
    requires IsMaster(last.entity) ==> IsMaster(line.entity)
    requires Agree(f, q.rows, init + [last])
    requires line == last || (line in init && Settled(f, q.rows, line))
    ensures Settled(f, Step(f, q, last).value.rows, line)
  {
    if line in init {
      AgreePair(f, q.rows, init, line, last);
    }
    StepSettles(f, q, last, line);
  }

  /** After a batch whose records agree, every record is settled. */
  lemma {:induction false} FoldSettles(f: Feed, p: Progress, lines: seq<Line>)
    requires DataInv(p.rows, p.signals) && MastersFirst(lines)
    requires Fold(Reader(f), p, lines).Some?
    requires Agree(f, Fold(Reader(f), p, lines).value.rows, lines)
    ensures forall line :: line in lines ==> Settled(f, Fold(Reader(f), p, lines).value.rows, line)
  {
    if lines != [] {
      var n := |lines| - 1;
      var init, last := lines[..n], lines[n];
      var q := Fold(Reader(f), p, init).value;
      assert lines == init + [last];
      FoldKeepsData(f, p, init);
      PlansKept(f, q, last, lines);
      AgreeBefore(f, q.rows, Step(f, q, last).value.rows, lines);
      if init != [] {
        AgreePair(f, q.rows, init, init[0], last);
      }
      FoldSettles(f, p, init);
      forall line | line in lines
        ensures Settled(f, Step(f, q, last).value.rows, line)
      {
        SettlesMore(f, q, init, last, line);
      }
    }
  }

  // ---- the second run -----------------------------------------------------------------------------

  /** Equal in every data column; only provenance may differ. */
  ghost predicate SameData(rows: seq<Row>, later: seq<Row>) {
    && |rows| == |later|
    && forall i :: 0 <= i < |rows| ==>
         later[i].entity == rows[i].entity && later[i].ent == rows[i].ent
         && later[i].cols == rows[i].cols && later[i].initial == rows[i].initial
  }

  lemma {:induction false} SameDataSameFind(rows: seq<Row>, later: seq<Row>, e: Entity, ent: Id, key: Key)
    requires SameData(rows, later)
    ensures Find(later, e, ent, key) == Find(rows, e, ent, key)
  {
    if rows != [] {
      var n := |rows| - 1;
      SameDataSameFind(rows[..n], later[..n], e, ent, key);
    }
  }

  lemma SameDataSamePlan(f: Feed, g: Feed, rows: seq<Row>, later: seq<Row>, line: Line)
    requires SameData(rows, later) && f.ent == g.ent && f.codec == g.codec
    ensures PlanOf(g, later, line) == PlanOf(f, rows, line)
  {
    var attrs := Extracted(f.codec, line.record, line.ms);
    forall fk | IsForeignKey(fk)
      ensures Refer(later, f.ent, line.entity, attrs, fk) == Refer(rows, f.ent, line.entity, attrs, fk)
    {
      if RefAttr(fk) in attrs {
        SameDataSameFind(rows, later, RefTarget(fk), f.ent, MasterKey(attrs[RefAttr(fk)]));
      }
    }
  }

  lemma HeldColumns(f: Feed, g: Feed, e: Entity, supplied: map<Column, Value>, rows: seq<Row>, later: seq<Row>, i: Id)
    requires Persisted(rows) && SameData(rows, later) && f.ent == g.ent
    requires Typed(e, supplied) && Holds(f, rows, e, supplied) && Readable(e, supplied)
    requires Find(rows, e, f.ent, KeyOf(e, supplied)) == Some(i)
    ensures later[i].cols + Written(e, supplied) == later[i].cols
    ensures Diff(g, e, later, i, supplied).None? <==> Exact(e, supplied)
  {
    forall c: Column | c in Written(e, supplied)
      ensures c in later[i].cols && later[i].cols[c] == Written(e, supplied)[c]
    {
      assert HasColumn(e, c);
    }
  }

  lemma HeldUpsert(f: Feed, g: Feed, e: Entity, supplied: map<Column, Value>, rows: seq<Row>, later: seq<Row>)
    requires Persisted(rows) && SameData(rows, later) && f.ent == g.ent
    requires Typed(e, supplied) && Holds(f, rows, e, supplied)
    ensures Upserted(g, e, supplied, later).Some? <==> Readable(e, supplied)
    ensures Upserted(g, e, supplied, later).Some? ==>
              && SameData(rows, Upserted(g, e, supplied, later).value.rows)
              && (Upserted(g, e, supplied, later).value.signal.None? <==> Exact(e, supplied))
  {
    SameDataSameFind(rows, later, e, f.ent, KeyOf(e, supplied));
    var i := Find(rows, e, f.ent, KeyOf(e, supplied)).value;
    var written := Written(e, supplied);
    assert Storable(e, written) <==> Readable(e, supplied) by {
      forall c: Column | c in supplied && !IsIdentity(e, c)
        ensures c in written && Accepts(e, c, written[c]) == (NotNull(e, c) ==> !supplied[c].Null?)
      {
      }
    }
    if Readable(e, supplied) {
      HeldColumns(f, g, e, supplied, rows, later, i);
    }
  }

  /** Re-reading one settled line. */
  lemma HeldStep(f: Feed, g: Feed, rows: seq<Row>, p: Progress, line: Line)
    requires Persisted(rows) && SameData(rows, p.rows)
    requires f.ent == g.ent && f.codec == g.codec && Settled(f, rows, line)
    ensures Step(g, p, line).Some? <==> LineReadable(f, rows, line)
    ensures Step(g, p, line).Some? ==>
              && SameData(rows, Step(g, p, line).value.rows)
              && p.signals <= Step(g, p, line).value.signals
              && (Step(g, p, line).value.signals == p.signals <==> LineExact(f, rows, line))
  {
    SameDataSamePlan(f, g, rows, p.rows, line);
    var plan := PlanOf(f, rows, line);
    if plan.Some? {
      var attrs := Extracted(f.codec, line.record, line.ms);
      PlanTyped(f.codec, line.entity, attrs, MastersOf(rows, f.ent, line.entity, attrs));
      HeldUpsert(f, g, line.entity, plan.value, rows, p.rows);
    }
  }

  ghost predicate AllReadable(f: Feed, rows: seq<Row>, lines: seq<Line>) {
    forall line :: line in lines ==> LineReadable(f, rows, line)
  }

  ghost predicate AllExact(f: Feed, rows: seq<Row>, lines: seq<Line>) {
    forall line :: line in lines ==> LineExact(f, rows, line)
  }

  lemma AllSplit(f: Feed, rows: seq<Row>, lines: seq<Line>, last: Line)
    ensures AllReadable(f, rows, lines + [last]) <==> AllReadable(f, rows, lines) && LineReadable(f, rows, last)
    ensures AllExact(f, rows, lines + [last]) <==> AllExact(f, rows, lines) && LineExact(f, rows, last)
  {
    assert last in lines + [last];
  }

  ghost predicate HeldResult(f: Feed, rows: seq<Row>, p: Progress, lines: seq<Line>, r: Option<Progress>) {
    match r
    case None => !AllReadable(f, rows, lines)
    case Some(q) =>
      && AllReadable(f, rows, lines)
      && SameData(rows, q.rows)
      && p.signals <= q.signals
      && (q.signals == p.signals <==> AllExact(f, rows, lines))
  }

  lemma HeldMore(f: Feed, g: Feed, rows: seq<Row>, p: Progress, lines: seq<Line>, last: Line, q: Progress)
    requires Persisted(rows) && f.ent == g.ent && f.codec == g.codec && Settled(f, rows, last)
    requires HeldResult(f, rows, p, lines, Some(q))
    ensures HeldResult(f, rows, p, lines + [last], Step(g, q, last))
  {
    HeldStep(f, g, rows, q, last);
    AllSplit(f, rows, lines, last);
  }

  lemma {:induction false} HeldFold(f: Feed, g: Feed, rows: seq<Row>, p: Progress, lines: seq<Line>)
    requires Persisted(rows) && SameData(rows, p.rows)
    requires f.ent == g.ent && f.codec == g.codec
    requires forall line :: line in lines ==> Settled(f, rows, line)
    ensures HeldResult(f, rows, p, lines, Fold(Reader(g), p, lines))
  {
    if lines != [] {
      var n := |lines| - 1;
      assert lines == lines[..n] + [lines[n]];
      HeldFold(f, g, rows, p, lines[..n]);
      match Fold(Reader(g), p, lines[..n])
      case None => AllSplit(f, rows, lines[..n], lines[n]);
      case Some(q) => HeldMore(f, g, rows, p, lines[..n], lines[n], q);
    }
  }

  /** An entity's place in the order of synchronisation. */
  function Place(e: Entity): nat {
    match e
    case Item => 0
    case Warehouse => 1
    case Supplier => 2
    case ItemSupplier => 3
    case StockLevel => 4
    case Price => 5
    case LeadTime => 6
    case Consumption => 7
    case ProductionDemand => 8
    case QualityRecord => 9
    case PurchaseOrder => 10
  }

  predicate Ordered(order: seq<Entity>) {
    forall i, j :: 0 <= i < j < |order| ==> Place(order[i]) < Place(order[j])
  }

  lemma {:induction false} LinesInOrder(ms: seq<Mapping>, records: seq<Record>, order: seq<Entity>)
    requires Ordered(order)
    ensures forall i, j :: 0 <= i < j < |Lines(ms, records, order)| ==>
              Place(Lines(ms, records, order)[i].entity) <= Place(Lines(ms, records, order)[j].entity)
    ensures forall line :: line in Lines(ms, records, order) ==> line.entity in order
  {
    if order != [] {
      var n := |order| - 1;
      LinesInOrder(ms, records, order[..n]);
      var rest := Lines(ms, records, order[..n]);
      assert forall i :: 0 <= i < |rest| ==> rest[i] in rest;
    }
  }

  lemma LinesMastersFirst(ms: seq<Mapping>, records: seq<Record>)
    ensures MastersFirst(AllLines(ms, records))
  {
    EntitiesOrdered();
    LinesInOrder(ms, records, ENTITY_ORDER);
  }

  lemma EntitiesOrdered()
    ensures Ordered(ENTITY_ORDER)
    ensures forall e: Entity :: IsMaster(e) <==> Place(e) < 3
  {
  }

  /** Every entity is synchronised, and what a reference answers before what refers to it. */
  lemma ReferencesLookBack(e: Entity, fk: Column)
    ensures Place(e) < |ENTITY_ORDER| && ENTITY_ORDER[Place(e)] == e
    ensures Refers(e, fk) ==> IsForeignKey(fk) && Place(RefTarget(fk)) < Place(e)
  {
    ReferencesMatch(e, fk);
  }

  /** Synchronising a batch whose records for one row agree, and then the same batch again:
      the second run succeeds exactly when every value of a not-null column can be read,
      then leaves every data column unchanged, and is silent exactly when every watched
      value has at most four decimals. */
  lemma ResyncIsIdempotent(f: Feed, g: Feed, ms: seq<Mapping>, records: seq<Record>, rows: seq<Row>,
                           signals: seq<Signal>)
    requires DataInv(rows, signals) && f.ent == g.ent && f.codec == g.codec
    requires Synced(f, ms, records, rows, signals).Some?
    requires Agree(f, Synced(f, ms, records, rows, signals).value.rows, AllLines(ms, records))
    ensures var first := Synced(f, ms, records, rows, signals).value;
            var second := Synced(g, ms, records, first.rows, first.signals);
            var lines := AllLines(ms, records);
            && (second.Some? <==> AllReadable(f, first.rows, lines))
            && (second.Some? ==> SameData(first.rows, second.value.rows))
            && (second.Some? ==> (second.value.signals == first.signals <==> AllExact(f, first.rows, lines)))
  {
    var first, lines := Synced(f, ms, records, rows, signals).value, AllLines(ms, records);
    LinesMastersFirst(ms, records);
    FoldKeepsData(f, Start(rows, signals), lines);
    FoldSettles(f, Start(rows, signals), lines);
    HeldFold(f, g, first.rows, Start(first.rows, first.signals), lines);
  }

  // ---- both exceptions occur --------------------------------------------------------------------

  /** A source with one record: an item and its stock. */
  function StockRecord(sku: string, quantity: string): Record {
    map["sku" := Some(sku), "quantity" := Some(quantity)]
  }

  const SKU_AS_KEY := Mapping("sku", Item, Col(Sku), None)
  const SKU_AS_REFERENCE := Mapping("sku", StockLevel, ItemSku, None)
  const QUANTITY := Mapping("quantity", StockLevel, Col(Quantity), None)

  function StockMappings(): seq<Mapping> {
    [SKU_AS_KEY, SKU_AS_REFERENCE, QUANTITY]
  }

  function ItemLine(sku: string, quantity: string): Line {
    Line(Item, [SKU_AS_KEY], StockRecord(sku, quantity))
  }

  function StockLine(sku: string, quantity: string): Line {
    Line(StockLevel, [SKU_AS_REFERENCE, QUANTITY], StockRecord(sku, quantity))
  }

  lemma {:induction false} UnmappedEntities(ms: seq<Mapping>, records: seq<Record>, order: seq<Entity>,
                                            rest: seq<Entity>)
    requires forall e :: e in rest ==> ForEntity(ms, e) == []
    ensures Lines(ms, records, order + rest) == Lines(ms, records, order)
  {
    if rest == [] {
      assert order + rest == order;
    } else {
      var n := |rest| - 1;
      assert (order + rest)[..|order + rest| - 1] == order + rest[..n];
      assert rest[n] in rest;
      UnmappedEntities(ms, records, order, rest[..n]);
    }
  }

  lemma LinesWithLast(ms: seq<Mapping>, records: seq<Record>, order: seq<Entity>, e: Entity)
    ensures Lines(ms, records, order + [e]) == Lines(ms, records, order) + LinesOf(ms, records, e)
  {
    assert (order + [e])[..|order|] == order;
  }

  lemma MappedEntities(e: Entity)
    ensures ForEntity(StockMappings(), e) ==
            if e.Item? then [SKU_AS_KEY] else if e.StockLevel? then [SKU_AS_REFERENCE, QUANTITY] else []
  {
    var one, two := [SKU_AS_KEY], [SKU_AS_KEY, SKU_AS_REFERENCE];
    assert StockMappings()[..2] == two && two[..1] == one && one[..0] == [];
    assert ForEntity(one, e) == if e.Item? then one else [];
    assert ForEntity(two, e) == if e.Item? then one else if e.StockLevel? then [SKU_AS_REFERENCE] else [];
  }

  lemma TwoMappedEntities(ms: seq<Mapping>, records: seq<Record>, a: Entity, between: seq<Entity>, b: Entity,
                          behind: seq<Entity>)
    requires forall e :: e in between || e in behind ==> ForEntity(ms, e) == []
    ensures Lines(ms, records, [a] + between + [b] + behind) == LinesOf(ms, records, a) + LinesOf(ms, records, b)
  {
    var x, y := LinesOf(ms, records, a), LinesOf(ms, records, b);
    assert Lines(ms, records, [a]) == x by {
      LinesWithLast(ms, records, [], a);
      assert [] + [a] == [a] && [] + x == x;
    }
    assert Lines(ms, records, [a] + between) == x by {
      UnmappedEntities(ms, records, [a], between);
    }
    assert Lines(ms, records, [a] + between + [b]) == x + y by {
      LinesWithLast(ms, records, [a] + between, b);
    }
    UnmappedEntities(ms, records, [a] + between + [b], behind);
  }

  lemma StockLinesOf(sku: string, quantity: string)
    ensures LinesOf(StockMappings(), [StockRecord(sku, quantity)], Item) == [ItemLine(sku, quantity)]
    ensures LinesOf(StockMappings(), [StockRecord(sku, quantity)], StockLevel) == [StockLine(sku, quantity)]
  {
    MappedEntities(Item);
    MappedEntities(StockLevel);
  }

  const BETWEEN: seq<Entity> := [Warehouse, Supplier, ItemSupplier]
  const BEHIND: seq<Entity> := [Price, LeadTime, Consumption, ProductionDemand, QualityRecord, PurchaseOrder]

  lemma OrderSplits()
    ensures ENTITY_ORDER == [Item] + BETWEEN + [StockLevel] + BEHIND
    ensures Item !in BETWEEN + BEHIND && StockLevel !in BETWEEN + BEHIND
  {
  }

  lemma StockLines(sku: string, quantity: string)
    ensures AllLines(StockMappings(), [StockRecord(sku, quantity)])
            == [ItemLine(sku, quantity), StockLine(sku, quantity)]
  {
    OrderSplits();
    StockLinesIn(sku, quantity, ENTITY_ORDER, BETWEEN, BEHIND);
  }

  lemma StockLinesIn(sku: string, quantity: string, order: seq<Entity>, between: seq<Entity>, behind: seq<Entity>)
    requires order == [Item] + between + [StockLevel] + behind
    requires Item !in between + behind && StockLevel !in between + behind
    ensures Lines(StockMappings(), [StockRecord(sku, quantity)], order) ==
            [ItemLine(sku, quantity), StockLine(sku, quantity)]
  {
    forall e: Entity
      ensures e in between || e in behind ==> ForEntity(StockMappings(), e) == []
    {
      MappedEntities(e);
      assert e in between || e in behind ==> e in between + behind;
    }
    TwoMappedEntities(StockMappings(), [StockRecord(sku, quantity)], Item, between, StockLevel, behind);
    StockLinesOf(sku, quantity);
  }

  lemma StockAttributes(codec: Codec, sku: string, quantity: string)
    requires sku != "" && quantity != ""
    ensures Extracted(codec, StockRecord(sku, quantity), [SKU_AS_KEY]) == map[Col(Sku) := sku]
    ensures Extracted(codec, StockRecord(sku, quantity), [SKU_AS_REFERENCE, QUANTITY]) ==
            map[ItemSku := sku, Col(Quantity) := quantity]
  {
    assert [SKU_AS_KEY][..0] == [];
    assert [SKU_AS_REFERENCE, QUANTITY][..1] == [SKU_AS_REFERENCE] && [SKU_AS_REFERENCE][..0] == [];
    assert Extracted(codec, StockRecord(sku, quantity), []) == map[];
  }

  lemma ItemMasters(attrs: map<Attr, string>, f: Feed, rows: seq<Row>)
    ensures ForeignKeys(Item, MastersOf(rows, f.ent, Item, attrs)) == map[]
  {
  }

  lemma ItemSupplied(f: Feed, sku: string)
    ensures Supplied(f.codec, Item, map[Col(Sku) := sku], map[]) == map[Sku := Text(sku)]
    ensures Identified(Item, map[Col(Sku) := sku], map[])
  {
  }

  lemma ItemPlan(f: Feed, sku: string, quantity: string, rows: seq<Row>)
    requires sku != "" && quantity != ""
    ensures PlanOf(f, rows, ItemLine(sku, quantity)) == Some(map[Sku := Text(sku)])
  {
    StockAttributes(f.codec, sku, quantity);
    ItemMasters(map[Col(Sku) := sku], f, rows);
    ItemSupplied(f, sku);
  }

  function StockSupplied(f: Feed, quantity: string): map<Column, Value> {
    map[ItemId := Ref(0), Quantity := Coerce(f.codec, Quantity, quantity)]
  }

  lemma StockMasters(f: Feed, attrs: map<Attr, string>, rows: seq<Row>)
    requires ItemSku in attrs && WarehouseCode !in attrs
    requires Find(rows, Item, f.ent, MasterKey(attrs[ItemSku])) == Some(0)
    ensures ForeignKeys(StockLevel, MastersOf(rows, f.ent, StockLevel, attrs)) == map[ItemId := 0]
  {
  }

  function StockAttrs(sku: string, quantity: string): map<Attr, string> {
    map[ItemSku := sku, Col(Quantity) := quantity]
  }

  lemma StockSuppliedAt(f: Feed, sku: string, quantity: string, c: Column)
    ensures var supplied := Supplied(f.codec, StockLevel, StockAttrs(sku, quantity), map[ItemId := 0]);
            && (c in supplied <==> c in StockSupplied(f, quantity))
            && (c in supplied ==> supplied[c] == StockSupplied(f, quantity)[c])
  {
    StockDataAt(sku, quantity, c);
  }

  lemma StockDataAt(sku: string, quantity: string, c: Column)
    ensures HasData(StockLevel, c) && !IsForeignKey(c) && Col(c) in StockAttrs(sku, quantity) <==> c == Quantity
  {
  }

  lemma StockSuppliedIs(f: Feed, sku: string, quantity: string)
    ensures Supplied(f.codec, StockLevel, StockAttrs(sku, quantity), map[ItemId := 0]) == StockSupplied(f, quantity)
  {
    forall c: Column
      ensures var supplied := Supplied(f.codec, StockLevel, StockAttrs(sku, quantity), map[ItemId := 0]);
              && (c in supplied <==> c in StockSupplied(f, quantity))
              && (c in supplied ==> supplied[c] == StockSupplied(f, quantity)[c])
    {
      StockSuppliedAt(f, sku, quantity, c);
    }
  }

  /** What the record asks to upsert as a stock level once its item is row 0. */
  lemma StockPlan(f: Feed, sku: string, quantity: string, rows: seq<Row>)
    requires sku != "" && quantity != ""
    requires Find(rows, Item, f.ent, MasterKey(sku)) == Some(0)
    ensures PlanOf(f, rows, StockLine(sku, quantity)) == Some(StockSupplied(f, quantity))
  {
    var attrs := map[ItemSku := sku, Col(Quantity) := quantity];
    StockAttributes(f.codec, sku, quantity);
    StockMasters(f, attrs, rows);
    StockSuppliedIs(f, sku, quantity);
    assert Identified(StockLevel, attrs, map[ItemId := 0]);
  }

  /** The rows the first run inserts. */
  function StockRows(f: Feed, sku: string, quantity: string): seq<Row> {
    [NewRow(f, Item, map[Sku := Text(sku)]), NewRow(f, StockLevel, StockSupplied(f, quantity))]
  }

  lemma ItemStep(f: Feed, sku: string, quantity: string)
    requires sku != "" && quantity != ""
    ensures var q := Step(f, Start([], []), ItemLine(sku, quantity));
            && q.Some? && q.value.rows == StockRows(f, sku, quantity)[..1] && q.value.signals == []
            && Find(q.value.rows, Item, f.ent, MasterKey(sku)) == Some(0)
  {
    var item := NewRow(f, Item, map[Sku := Text(sku)]);
    ItemPlan(f, sku, quantity, []);
    ItemAccepted(sku);
    assert [] + [item] == [item] && StockRows(f, sku, quantity)[..1] == [item];
    assert HasKey([item][0], Item, f.ent, MasterKey(sku));
    assert [item][..0] == [];
  }

  lemma NoStockRow(f: Feed, sku: string, quantity: string)
    ensures var key := KeyOf(StockLevel, StockSupplied(f, quantity));
            Find(StockRows(f, sku, quantity)[..1], StockLevel, f.ent, key).None?
  {
    assert StockRows(f, sku, quantity)[..1][..0] == [];
  }

  lemma StockStep(f: Feed, sku: string, quantity: string, p: Progress)
    requires sku != "" && quantity != ""
    requires p.rows == StockRows(f, sku, quantity)[..1] && Find(p.rows, Item, f.ent, MasterKey(sku)) == Some(0)
    requires Storable(StockLevel, Inserted(StockLevel, StockSupplied(f, quantity)))
    ensures var q := Step(f, p, StockLine(sku, quantity));
            q.Some? && q.value.rows == StockRows(f, sku, quantity) && q.value.signals == p.signals
  {
    StockPlan(f, sku, quantity, p.rows);
    NoStockRow(f, sku, quantity);
    assert StockRows(f, sku, quantity) == StockRows(f, sku, quantity)[..1] + [StockRows(f, sku, quantity)[1]];
  }

  lemma FirstRun(f: Feed, sku: string, quantity: string)
    requires sku != "" && quantity != ""
    requires Storable(StockLevel, Inserted(StockLevel, StockSupplied(f, quantity)))
    ensures var first := Synced(f, StockMappings(), [StockRecord(sku, quantity)], [], []);
            first.Some? && first.value.rows == StockRows(f, sku, quantity) && first.value.signals == []
  {
    var a, b := ItemLine(sku, quantity), StockLine(sku, quantity);
    StockLines(sku, quantity);
    ItemStep(f, sku, quantity);
    StockStep(f, sku, quantity, Step(f, Start([], []), a).value);
    FoldTwo(Reader(f), Start([], []), a, b);
  }

  lemma NoRows()
    ensures DataInv([], [])
  {
  }

  lemma FirstRunFinds(f: Feed, sku: string, quantity: string)
    ensures Find(StockRows(f, sku, quantity), Item, f.ent, MasterKey(sku)) == Some(0)
  {
    var rows := StockRows(f, sku, quantity);
    assert HasKey(rows[0], Item, f.ent, MasterKey(sku));
    assert rows[..1][..0] == [];
  }

  /** What the two records need for the second run to succeed, and to be silent. */
  lemma StockBatchAgrees(f: Feed, sku: string, quantity: string)
    requires sku != "" && quantity != ""
    ensures var rows, lines := StockRows(f, sku, quantity), [ItemLine(sku, quantity), StockLine(sku, quantity)];
            && Agree(f, rows, lines)
            && (AllReadable(f, rows, lines) <==> Readable(StockLevel, StockSupplied(f, quantity)))
            && (AllExact(f, rows, lines) <==> Exact(StockLevel, StockSupplied(f, quantity)))
  {
    var rows, a, b := StockRows(f, sku, quantity), ItemLine(sku, quantity), StockLine(sku, quantity);
    ItemPlan(f, sku, quantity, rows);
    FirstRunFinds(f, sku, quantity);
    StockPlan(f, sku, quantity, rows);
    TwoEntitiesAgree(f, rows, a, b);
    assert Readable(Item, map[Sku := Text(sku)]) && Exact(Item, map[Sku := Text(sku)]);
  }

  lemma TwoEntitiesAgree(f: Feed, rows: seq<Row>, a: Line, b: Line)
    requires a.entity != b.entity
    ensures Agree(f, rows, [a, b])
    ensures AllReadable(f, rows, [a, b]) <==> LineReadable(f, rows, a) && LineReadable(f, rows, b)
    ensures AllExact(f, rows, [a, b]) <==> LineExact(f, rows, a) && LineExact(f, rows, b)
  {
    assert a in [a, b] && b in [a, b];
  }

  lemma SecondRun(f: Feed, g: Feed, sku: string, quantity: string)
    requires sku != "" && quantity != "" && f.ent == g.ent && f.codec == g.codec
    requires Storable(StockLevel, Inserted(StockLevel, StockSupplied(f, quantity)))
    ensures var ms, records := StockMappings(), [StockRecord(sku, quantity)];
            var second := Synced(g, ms, records, StockRows(f, sku, quantity), []);
            && (second.Some? <==> Readable(StockLevel, StockSupplied(f, quantity)))
            && (second.Some? ==> SameData(StockRows(f, sku, quantity), second.value.rows))
            && (second.Some? ==> (second.value.signals == [] <==> Exact(StockLevel, StockSupplied(f, quantity))))
  {
    FirstRun(f, sku, quantity);
    NoRows();
    StockLines(sku, quantity);
    StockBatchAgrees(f, sku, quantity);
    ResyncIsIdempotent(f, g, StockMappings(), [StockRecord(sku, quantity)], [], []);
  }

  /** One record of an item and its stock, read twice. A quantity with a fifth decimal is stored
      rounded but compared unrounded: the second run changes no data and still logs a signal. */
  lemma FifthDecimalSignals(f: Feed, g: Feed, sku: string, quantity: string, r: real)
    requires sku != "" && quantity != "" && f.ent == g.ent && f.codec == g.codec
    requires f.codec.decimal(quantity) == Some(r) && Fits(r) && !Scaled(r)
    ensures var ms, records := StockMappings(), [StockRecord(sku, quantity)];
            var first := Synced(f, ms, records, [], []);
            && first.Some? && first.value.signals == []
            && var second := Synced(g, ms, records, first.value.rows, first.value.signals);
               second.Some? && SameData(first.value.rows, second.value.rows) && second.value.signals != []
  {
    QuantityAccepted(StockLevel, 0, r);
    FirstRun(f, sku, quantity);
    SecondRun(f, g, sku, quantity);
  }

  /** There are such quantities. */
  lemma FifthDecimalExists()
    ensures Fits(1.00005) && !Scaled(1.00005)
  {
    assert RoundUnits(1.00005) == 10001;
  }

  /** The same record with a quantity that cannot be read: the first run inserts the default, and
      every later one is refused. */
  lemma UnreadableQuantityRaisesLater(f: Feed, g: Feed, sku: string, quantity: string)
    requires sku != "" && quantity != "" && f.ent == g.ent && f.codec == g.codec
    requires f.codec.decimal(quantity).None?
    ensures var ms, records := StockMappings(), [StockRecord(sku, quantity)];
            var first := Synced(f, ms, records, [], []);
            && first.Some?
            && Synced(g, ms, records, first.value.rows, first.value.signals).None?
  {
    InsertAccepted(StockLevel, StockSupplied(f, quantity));
    FirstRun(f, sku, quantity);
    SecondRun(f, g, sku, quantity);
  }
}
