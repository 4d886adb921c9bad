/** What every synchronisation keeps: one row per key, and a signal log that replays each
    watched column from its first value to its current one. */
module SyncProps {
  import opened Basics
  import opened Folds
  import opened Tables
  import opened Schema
  import opened SyncSpec

  // ---- keys --------------------------------------------------------------------------------

  /** Only columns of the entity are supplied, and no identity column is a rounded number. */
  ghost predicate Typed(e: Entity, supplied: map<Column, Value>) {
    forall c: Column :: c in supplied ==> HasColumn(e, c) && (IsIdentity(e, c) ==> !supplied[c].Num?)
  }

  lemma SuppliedTyped(codec: Codec, e: Entity, attrs: map<Attr, string>, fks: map<Column, Id>)
    requires forall c :: c in fks ==> Refers(e, c)
    ensures Typed(e, Supplied(codec, e, attrs, fks))
  {
    var supplied := Supplied(codec, e, attrs, fks);
    forall c: Column | c in supplied
      ensures HasColumn(e, c) && (IsIdentity(e, c) ==> !supplied[c].Num?)
    {
      if c !in fks {
        IdentityIsNoNumber(e, c);
      }
    }
  }

  lemma IdentityIsNoNumber(e: Entity, c: Column)
    ensures !IsForeignKey(c) && IsIdentity(e, c) ==> TypeOf(c) != Number
  {
  }

  lemma PlanTyped(codec: Codec, e: Entity, attrs: map<Attr, string>, m: Masters)
    ensures Plan(codec, e, attrs, m).Some? ==> Typed(e, Plan(codec, e, attrs, m).value)
  {
    SuppliedTyped(codec, e, attrs, ForeignKeys(e, m));
  }

  /** Two rows have the same upsert key exactly when all their identity columns agree. */
  lemma KeyDecides(e: Entity, a: map<Column, Value>, b: map<Column, Value>)
    ensures KeyOf(e, a) == KeyOf(e, b) <==> forall c: Column :: IsIdentity(e, c) ==> Cell(a, c) == Cell(b, c)
  {
    var used := [Sku, Code, ExternalRef, ItemId, SupplierId, WarehouseId, NeedBy, AsOf];
    assert forall c: Column :: IsIdentity(e, c) ==> c in used;
    if forall c: Column :: IsIdentity(e, c) ==> Cell(a, c) == Cell(b, c) {
      assert forall i :: 0 <= i < |used| && IsIdentity(e, used[i]) ==> Cell(a, used[i]) == Cell(b, used[i]);
    }
  }

  lemma InsertedCell(e: Entity, supplied: map<Column, Value>, c: Column)
    requires Typed(e, supplied) && IsIdentity(e, c)
    ensures Cell(Inserted(e, supplied), c) == Cell(supplied, c)
  {
    ReferencesMatch(e, c);
    IdentityHasNoDefault(e, c);
  }

  lemma IdentityHasNoDefault(e: Entity, c: Column)
    ensures IsIdentity(e, c) ==> DefaultOf(e, c).Null?
  {
  }

  lemma InsertedKey(e: Entity, supplied: map<Column, Value>)
    requires Typed(e, supplied)
    ensures KeyOf(e, Inserted(e, supplied)) == KeyOf(e, supplied)
  {
    forall c: Column | IsIdentity(e, c)
      ensures Cell(Inserted(e, supplied), c) == Cell(supplied, c)
    {
      InsertedCell(e, supplied, c);
    }
    KeyDecides(e, Inserted(e, supplied), supplied);
  }

  lemma UpdatedKey(e: Entity, cols: map<Column, Value>, supplied: map<Column, Value>)
    ensures KeyOf(e, cols + Written(e, supplied)) == KeyOf(e, cols)
  {
    forall c: Column | IsIdentity(e, c)
      ensures Cell(cols + Written(e, supplied), c) == Cell(cols, c)
    {
    }
  }

  // ---- insertions the database accepts -------------------------------------------------------------

  lemma DefaultAccepted(e: Entity, c: Column)
    ensures Accepts(e, c, DefaultOf(e, c)) <==> (NotNull(e, c) ==> !DefaultOf(e, c).Null?)
  {
    RoundUnitsExact(0);
  }

  /** A new row is accepted when every supplied value is, and every column that needs a value
      is supplied one or has a default. */
  lemma InsertAccepted(e: Entity, supplied: map<Column, Value>)
    requires forall c: Column :: HasColumn(e, c) && Cell(supplied, c).Null? && NotNull(e, c) ==> !DefaultOf(e, c).Null?
    requires forall c: Column :: HasColumn(e, c) && !Cell(supplied, c).Null? ==>
                 Accepts(e, c, Stored(Cell(supplied, c)))
    ensures Storable(e, Inserted(e, supplied))
  {
    forall c: Column | HasColumn(e, c)
      ensures Accepts(e, c, Inserted(e, supplied)[c])
    {
      DefaultAccepted(e, c);
    }
  }

  lemma ItemAccepted(sku: string)
    ensures Storable(Item, Inserted(Item, map[Sku := Text(sku)]))
  {
    InsertAccepted(Item, map[Sku := Text(sku)]);
  }

  /** A stock level or a consumption of a known item, with any quantity that fits. */
  lemma QuantityAccepted(e: Entity, item: Id, quantity: real)
    requires e.StockLevel? || e.Consumption?
    requires Fits(quantity)
    ensures Storable(e, Inserted(e, map[ItemId := Ref(item), Quantity := Num(quantity)]))
  {
    RoundUnitsExact(RoundUnits(quantity));
    InsertAccepted(e, map[ItemId := Ref(item), Quantity := Num(quantity)]);
  }

  // ---- replaying signals ---------------------------------------------------------------------

  /** The watched value of row `i` after the signals, starting from `first`. */
  function Replay(signals: seq<Signal>, i: Id, first: Value): Value {
    if signals == [] then first
    else if signals[|signals| - 1].row == i then Stored(signals[|signals| - 1].after)
    else Replay(signals[..|signals| - 1], i, first)
  }

  /** The signals of row `i` form a chain from `first`: each starts from the value its
      predecessor left, and none is a link from a value to itself. */
  ghost predicate Linked(signals: seq<Signal>, i: Id, first: Value) {
    forall k :: 0 <= k < |signals| && signals[k].row == i ==>
      && signals[k].before == Replay(signals[..k], i, first)
      && signals[k].before != signals[k].after
  }

  /** The signals tell the whole history of row `i`'s watched column. */
  ghost predicate Told(r: Row, i: Id, signals: seq<Signal>) {
    match Watched(r.entity)
    case None => forall k :: 0 <= k < |signals| ==> signals[k].row != i
    case Some((c, kind)) =>
      && Linked(signals, i, Cell(r.initial, c))
      && Replay(signals, i, Cell(r.initial, c)) == Cell(r.cols, c)
      && (forall k :: 0 <= k < |signals| && signals[k].row == i ==> signals[k].kind == kind && signals[k].ent == r.ent)
  }

  lemma {:induction false} ReplayUntouched(signals: seq<Signal>, i: Id, first: Value)
    requires forall k :: 0 <= k < |signals| ==> signals[k].row != i
    ensures Replay(signals, i, first) == first
  {
    if signals != [] {
      ReplayUntouched(signals[..|signals| - 1], i, first);
    }
  }

  lemma ReplayMore(signals: seq<Signal>, s: Signal, i: Id, first: Value)
    ensures Replay(signals + [s], i, first) == if s.row == i then Stored(s.after) else Replay(signals, i, first)
  {
    assert (signals + [s])[..|signals|] == signals;
  }

  lemma LinkedMore(signals: seq<Signal>, s: Signal, i: Id, first: Value)
    requires Linked(signals, i, first)
    requires s.row == i ==> s.before == Replay(signals, i, first) && s.before != s.after
    ensures Linked(signals + [s], i, first)
  {
    var more := signals + [s];
    forall k | 0 <= k < |more| && more[k].row == i
      ensures more[k].before == Replay(more[..k], i, first) && more[k].before != more[k].after
    {
      assert more[..k] == signals[..k];
      assert signals[..|signals|] == signals;
    }
  }

  // ---- the invariant -----------------------------------------------------------------------

  /** A row has exactly its table's columns, and cells hold what the database stores. */
  ghost predicate Persisted(rows: seq<Row>) {
    forall i, c: Column :: 0 <= i < |rows| ==>
      && (c in rows[i].cols <==> HasColumn(rows[i].entity, c))
      && (c in rows[i].cols ==> Stored(rows[i].cols[c]) == rows[i].cols[c])
  }

  ghost predicate SignalsInRange(rows: seq<Row>, signals: seq<Signal>) {
    forall k :: 0 <= k < |signals| ==> signals[k].row < |rows|
  }

  ghost predicate AllTold(rows: seq<Row>, signals: seq<Signal>) {
    forall i :: 0 <= i < |rows| ==> Told(rows[i], i, signals)
  }

  /** The state of the canonical data between any two transactions. */
  ghost predicate DataInv(rows: seq<Row>, signals: seq<Signal>) {
    && UniqueKeys(rows)
    && Persisted(rows)
    && SignalsInRange(rows, signals)
    && AllTold(rows, signals)
  }

  /** Rows are never dropped, moved or re-keyed. */
  ghost predicate RowsGrow(rows: seq<Row>, later: seq<Row>) {
    && |rows| <= |later|
    && (forall i :: 0 <= i < |rows| ==>
          && later[i].entity == rows[i].entity
          && later[i].ent == rows[i].ent
          && later[i].initial == rows[i].initial
          && KeyOf(later[i].entity, later[i].cols) == KeyOf(rows[i].entity, rows[i].cols))
  }

  ghost predicate Grows(p: Progress, q: Progress) {
    RowsGrow(p.rows, q.rows) && p.signals <= q.signals
  }

  predicate ItemRow(rows: seq<Row>, ent: Id, i: Id) {
    i < |rows| && rows[i].entity.Item? && rows[i].ent == ent
  }

  /** A signal names an item of its enterprise, the one that the key of its row starts with. */
  predicate ItemKnown(rows: seq<Row>, s: Signal) {
    && s.item.Some? && ItemRow(rows, s.ent, s.item.value)
    && s.row < |rows| && Watched(rows[s.row].entity).Some?
    && KeyOf(rows[s.row].entity, rows[s.row].cols).a == Ref(s.item.value)
  }

  /** The keys of watched rows start with their item. */
  lemma WatchedKey(e: Entity, cols: map<Column, Value>)
    ensures Watched(e).Some? ==> KeyOf(e, cols).a == Cell(cols, ItemId) && IsRequired(e, ItemId) && Refers(e, ItemId)
  {
  }

  /** The counters of a synchronisation describe its new signals. */
  ghost predicate Accounted(f: Feed, p: Progress, q: Progress) {
    && q.counts.created - p.counts.created == |q.signals| - |p.signals|
    && p.counts.touched <= q.counts.touched
    && (forall k :: |p.signals| <= k < |q.signals| ==>
          q.signals[k].ent == f.ent && ItemKnown(q.rows, q.signals[k]) && q.signals[k].item.value in q.counts.touched)
  }

  lemma StoredOnce(v: Value)
    ensures Stored(Stored(v)) == Stored(v)
  {
    if v.Num? {
      Round4Idempotent(v.r);
    }
  }

  lemma InsertPersists(f: Feed, e: Entity, supplied: map<Column, Value>, rows: seq<Row>)
    requires Persisted(rows)
    ensures Persisted(rows + [NewRow(f, e, supplied)])
  {
    var row := NewRow(f, e, supplied);
    RoundUnitsExact(0);
    forall c | c in row.cols
      ensures Stored(row.cols[c]) == row.cols[c]
    {
      StoredOnce(Cell(supplied, c));
    }
  }

  lemma InsertTells(f: Feed, e: Entity, supplied: map<Column, Value>, rows: seq<Row>, signals: seq<Signal>)
    requires SignalsInRange(rows, signals) && AllTold(rows, signals)
    ensures AllTold(rows + [NewRow(f, e, supplied)], signals)
  {
    var row := NewRow(f, e, supplied);
    if Watched(e).Some? {
      ReplayUntouched(signals, |rows|, Cell(row.initial, Watched(e).value.0));
    }
    assert Told(row, |rows|, signals);
  }

  lemma InsertKeepsData(f: Feed, e: Entity, supplied: map<Column, Value>, rows: seq<Row>, signals: seq<Signal>)
    requires DataInv(rows, signals) && Typed(e, supplied)
    requires Find(rows, e, f.ent, KeyOf(e, supplied)).None?
    ensures DataInv(rows + [NewRow(f, e, supplied)], signals)
  {
    var row := NewRow(f, e, supplied);
    InsertedKey(e, supplied);
    InsertPersists(f, e, supplied, rows);
    InsertTells(f, e, supplied, rows, signals);
    forall i | 0 <= i < |rows| && rows[i].entity == e && rows[i].ent == f.ent
      ensures KeyOf(e, rows[i].cols) != KeyOf(e, row.cols)
    {
      assert !HasKey(rows[i], e, f.ent, KeyOf(e, supplied));
    }
  }

  lemma UpdateKeepsKeys(f: Feed, e: Entity, supplied: map<Column, Value>, rows: seq<Row>, i: Id)
    requires UniqueKeys(rows) && Persisted(rows) && Typed(e, supplied)
    requires i < |rows| && rows[i].entity == e
    ensures UniqueKeys(rows[i := UpdatedRow(f, e, rows[i], supplied)])
    ensures Persisted(rows[i := UpdatedRow(f, e, rows[i], supplied)])
  {
    UpdatedKey(e, rows[i].cols, supplied);
    forall c | c in Written(e, supplied)
      ensures Stored(Written(e, supplied)[c]) == Written(e, supplied)[c]
    {
      StoredOnce(supplied[c]);
    }
  }

  lemma WatchedCell(e: Entity, cols: map<Column, Value>, supplied: map<Column, Value>, c: Column)
    requires !IsIdentity(e, c)
    ensures Cell(cols + Written(e, supplied), c) == if c in supplied then Stored(supplied[c]) else Cell(cols, c)
  {
  }

  lemma UpdateTellsRow(f: Feed, e: Entity, supplied: map<Column, Value>, rows: seq<Row>, signals: seq<Signal>, i: Id)
    requires i < |rows| && rows[i].entity == e && rows[i].ent == f.ent
    requires Persisted(rows)
    requires Told(rows[i], i, signals)
    ensures Told(UpdatedRow(f, e, rows[i], supplied), i, Log(signals, Diff(f, e, rows, i, supplied)))
  {
    match Watched(e)
    case None =>
    case Some((c, kind)) =>
      var d, first, cell := Diff(f, e, rows, i, supplied), Cell(rows[i].initial, c), Cell(rows[i].cols, c);
      WatchedCell(e, rows[i].cols, supplied, c);
      assert Stored(cell) == cell;
      if d.Some? {
        ReplayMore(signals, d.value, i, first);
        LinkedMore(signals, d.value, i, first);
      }
  }

  lemma OtherRowStaysTold(r: Row, j: Id, signals: seq<Signal>, s: Signal)
    requires Told(r, j, signals) && s.row != j
    ensures Told(r, j, signals + [s])
  {
    match Watched(r.entity)
    case None =>
    case Some((c, kind)) =>
      ReplayMore(signals, s, j, Cell(r.initial, c));
      LinkedMore(signals, s, j, Cell(r.initial, c));
  }

  lemma UpdateTellsAll(f: Feed, e: Entity, supplied: map<Column, Value>, rows: seq<Row>, signals: seq<Signal>, i: Id)
    requires i < |rows| && rows[i].entity == e && rows[i].ent == f.ent
    requires Persisted(rows) && AllTold(rows, signals)
    ensures AllTold(rows[i := UpdatedRow(f, e, rows[i], supplied)], Log(signals, Diff(f, e, rows, i, supplied)))
  {
    var d := Diff(f, e, rows, i, supplied);
    var after, log := rows[i := UpdatedRow(f, e, rows[i], supplied)], Log(signals, d);
    forall j | 0 <= j < |after|
      ensures Told(after[j], j, log)
    {
      assert Told(rows[j], j, signals);
      if j == i {
        UpdateTellsRow(f, e, supplied, rows, signals, i);
      } else if d.Some? {
        OtherRowStaysTold(rows[j], j, signals, d.value);
      }
    }
  }

  lemma UpsertKeepsData(f: Feed, e: Entity, supplied: map<Column, Value>, rows: seq<Row>, signals: seq<Signal>)
    requires DataInv(rows, signals) && Typed(e, supplied)
    requires Upserted(f, e, supplied, rows).Some?
    ensures var u := Upserted(f, e, supplied, rows).value;
            DataInv(u.rows, Log(signals, u.signal)) && RowsGrow(rows, u.rows)
  {
    match Find(rows, e, f.ent, KeyOf(e, supplied))
    case None =>
      InsertKeepsData(f, e, supplied, rows, signals);
    case Some(i) =>
      UpdateKeepsKeys(f, e, supplied, rows, i);
      UpdatedKey(e, rows[i].cols, supplied);
      UpdateTellsAll(f, e, supplied, rows, signals, i);
  }

  /** A watched row's record names its item, so its signal does. */
  lemma UpsertAccounts(f: Feed, e: Entity, attrs: map<Attr, string>, m: Masters, rows: seq<Row>)
    requires m == MastersOf(rows, f.ent, e, attrs)
    requires Plan(f.codec, e, attrs, m).Some?
    requires Upserted(f, e, Plan(f.codec, e, attrs, m).value, rows).Some?
    ensures var u := Upserted(f, e, Plan(f.codec, e, attrs, m).value, rows).value;
            u.signal.Some? ==> ItemKnown(rows, u.signal.value) && u.signal.value.ent == f.ent
  {
    WatchedKey(e, Plan(f.codec, e, attrs, m).value);
  }

  lemma PlannedKeepsData(f: Feed, p: Progress, line: Line, supplied: map<Column, Value>, u: Upsertion)
    requires DataInv(p.rows, p.signals)
    requires PlanOf(f, p.rows, line) == Some(supplied) && Upserted(f, line.entity, supplied, p.rows) == Some(u)
    ensures DataInv(u.rows, Log(p.signals, u.signal)) && RowsGrow(p.rows, u.rows)
    ensures u.signal.Some? ==> ItemKnown(u.rows, u.signal.value) && u.signal.value.ent == f.ent
  {
    var attrs := Extracted(f.codec, line.record, line.ms);
    var m := MastersOf(p.rows, f.ent, line.entity, attrs);
    PlanTyped(f.codec, line.entity, attrs, m);
    UpsertKeepsData(f, line.entity, supplied, p.rows, p.signals);
    UpsertAccounts(f, line.entity, attrs, m, p.rows);
  }

  lemma StepKeepsData(f: Feed, p: Progress, line: Line)
    requires DataInv(p.rows, p.signals) && Step(f, p, line).Some?
    ensures var q := Step(f, p, line).value;
            DataInv(q.rows, q.signals) && Grows(p, q) && Accounted(f, p, q)
  {
    var plan := PlanOf(f, p.rows, line);
    if plan.Some? {
      PlannedKeepsData(f, p, line, plan.value, Upserted(f, line.entity, plan.value, p.rows).value);
    }
  }

  /** Any sequence of record upserts keeps keys unique and the signal log complete. */
  lemma {:induction false} FoldKeepsData(f: Feed, p: Progress, lines: seq<Line>)
    requires DataInv(p.rows, p.signals) && Fold(Reader(f), p, lines).Some?
    ensures var q := Fold(Reader(f), p, lines).value;
            DataInv(q.rows, q.signals) && Grows(p, q) && Accounted(f, p, q)
  {
    if lines != [] {
      var n := |lines| - 1;
      FoldKeepsData(f, p, lines[..n]);
      StepKeepsData(f, Fold(Reader(f), p, lines[..n]).value, lines[n]);
    }
  }

  // ---- when a batch raises -----------------------------------------------------------------------

  /** The record plans an upsert whose new or written values the database does not accept. */
  predicate Refuses(f: Feed, rows: seq<Row>, line: Line) {
    var plan := PlanOf(f, rows, line);
    plan.Some? &&
    if Find(rows, line.entity, f.ent, KeyOf(line.entity, plan.value)).None?
    then !Storable(line.entity, Inserted(line.entity, plan.value))
    else !Storable(line.entity, Written(line.entity, plan.value))
  }

  /** The line is reached, and refused. */
  ghost predicate FirstRefused(f: Feed, p: Progress, lines: seq<Line>, n: nat) {
    && n < |lines|
    && Fold(Reader(f), p, lines[..n]).Some?
    && Refuses(f, Fold(Reader(f), p, lines[..n]).value.rows, lines[n])
  }

  lemma RefusedIsFailure(f: Feed, p: Progress, lines: seq<Line>, n: nat)
    ensures FailsAt(Reader(f), p, lines, n) <==> FirstRefused(f, p, lines, n)
  {
  }

  /** A batch raises exactly when it has a first line that the database refuses. */
  lemma BatchRaises(f: Feed, p: Progress, lines: seq<Line>)
    ensures Fold(Reader(f), p, lines).None? <==> exists n :: FirstRefused(f, p, lines, n)
  {
    FoldFailsAt(Reader(f), p, lines);
    forall n: nat
      ensures FailsAt(Reader(f), p, lines, n) <==> FirstRefused(f, p, lines, n)
    {
      RefusedIsFailure(f, p, lines, n);
    }
  }

  // ---- lookups -------------------------------------------------------------------------------

  /** With unique keys the lookup answers the row that has the key. */
  lemma FindIsThe(rows: seq<Row>, e: Entity, ent: Id, key: Key, i: Id)
    requires UniqueKeys(rows) && i < |rows| && HasKey(rows[i], e, ent, key)
    ensures Find(rows, e, ent, key) == Some(i)
  {
    assert Find(rows, e, ent, key).Some?;
  }

  /** A lookup that answered a row answers the same row ever after. */
  lemma FindStable(rows: seq<Row>, later: seq<Row>, e: Entity, ent: Id, key: Key)
    requires RowsGrow(rows, later) && UniqueKeys(later)
    requires Find(rows, e, ent, key).Some?
    ensures Find(later, e, ent, key) == Find(rows, e, ent, key)
  {
    FindIsThe(later, e, ent, key, Find(rows, e, ent, key).value);
  }
}
