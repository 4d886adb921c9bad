/** A synchronisation refines a fold of updates of one map from upsert keys to column values
    (src/app/integration/sync.py:287-376). */
module SyncCatalog {
  import opened Basics
  import opened Folds
  import opened Tables
  import opened Schema
  import opened SyncSpec
  import opened SyncProps

  datatype RowKey = RowKey(e: Entity, ent: Id, key: Key)
  datatype Entry = Entry(id: Id, cols: map<Column, Value>)

  /** The canonical data as a map; `size` is the next fresh identifier. */
  datatype Catalog = Catalog(entries: map<RowKey, Entry>, size: nat)

  function KeyOfRow(r: Row): RowKey {
    RowKey(r.entity, r.ent, KeyOf(r.entity, r.cols))
  }

  function Get(cat: Catalog, k: RowKey): Option<Id> {
    if k in cat.entries then Some(cat.entries[k].id) else None
  }

  function MasterIn(cat: Catalog, ent: Id, e: Entity, attrs: map<Attr, string>, fk: Column): Option<Id>
    requires IsForeignKey(fk)
  {
    if Refers(e, fk) && RefAttr(fk) in attrs
    then Get(cat, RowKey(RefTarget(fk), ent, MasterKey(attrs[RefAttr(fk)])))
    else None
  }

  /** Putting the supplied values under their key: new keys get the defaults, known keys
      keep what is not supplied. */
  function Put(f: Feed, e: Entity, supplied: map<Column, Value>, cat: Catalog): Option<Catalog> {
    var k := RowKey(e, f.ent, KeyOf(e, supplied));
    if k !in cat.entries then
      if Storable(e, Inserted(e, supplied))
      then Some(Catalog(cat.entries[k := Entry(cat.size, Inserted(e, supplied))], cat.size + 1))
      else None
    else if Storable(e, Written(e, supplied)) then
      var old_ := cat.entries[k];
      Some(cat.(entries := cat.entries[k := Entry(old_.id, old_.cols + Written(e, supplied))]))
    else None
  }

  function PutLine(f: Feed, cat: Catalog, line: Line): Option<Catalog> {
    var attrs := Extracted(f.codec, line.record, line.ms);
    var m := Masters(MasterIn(cat, f.ent, line.entity, attrs, ItemId),
                     MasterIn(cat, f.ent, line.entity, attrs, SupplierId),
                     MasterIn(cat, f.ent, line.entity, attrs, WarehouseId));
    match Plan(f.codec, line.entity, attrs, m)
    case None => Some(cat)
    case Some(supplied) => Put(f, line.entity, supplied, cat)
  }

  function Putter(f: Feed): (Catalog, Line) -> Option<Catalog> {
    (cat, line) => PutLine(f, cat, line)
  }

  /** The map holds exactly the rows, each under its key. */
  ghost predicate Represents(cat: Catalog, rows: seq<Row>) {
    && cat.size == |rows|
    && (forall i :: 0 <= i < |rows| ==>
          KeyOfRow(rows[i]) in cat.entries && cat.entries[KeyOfRow(rows[i])] == Entry(i, rows[i].cols))
    && (forall k :: k in cat.entries ==>
          cat.entries[k].id < |rows| && KeyOfRow(rows[cat.entries[k].id]) == k)
  }

  lemma GetIsFind(cat: Catalog, rows: seq<Row>, e: Entity, ent: Id, key: Key)
    requires Represents(cat, rows)
    ensures Get(cat, RowKey(e, ent, key)) == Find(rows, e, ent, key)
  {
    var k, found := RowKey(e, ent, key), Find(rows, e, ent, key);
    if k in cat.entries {
      assert HasKey(rows[cat.entries[k].id], e, ent, key);
    }
    if found.Some? {
      assert KeyOfRow(rows[found.value]) == k;
    }
  }

  lemma PutInserts(cat: Catalog, rows: seq<Row>, row: Row)
    requires Represents(cat, rows) && KeyOfRow(row) !in cat.entries
    ensures Represents(Catalog(cat.entries[KeyOfRow(row) := Entry(cat.size, row.cols)], cat.size + 1), rows + [row])
  {
  }

  lemma PutUpdates(cat: Catalog, rows: seq<Row>, i: Id, row: Row)
    requires Represents(cat, rows) && i < |rows| && KeyOfRow(row) == KeyOfRow(rows[i])
    ensures Represents(cat.(entries := cat.entries[KeyOfRow(row) := Entry(i, row.cols)]), rows[i := row])
  {
  }

  lemma PutIsUpsert(f: Feed, e: Entity, supplied: map<Column, Value>, cat: Catalog, rows: seq<Row>)
    requires Represents(cat, rows) && Typed(e, supplied)
    ensures match Upserted(f, e, supplied, rows)
            case None => Put(f, e, supplied, cat).None?
            case Some(u) => Put(f, e, supplied, cat).Some? && Represents(Put(f, e, supplied, cat).value, u.rows)
  {
    GetIsFind(cat, rows, e, f.ent, KeyOf(e, supplied));
    match Find(rows, e, f.ent, KeyOf(e, supplied))
    case None =>
      InsertedKey(e, supplied);
      PutInserts(cat, rows, NewRow(f, e, supplied));
    case Some(i) =>
      UpdatedKey(e, rows[i].cols, supplied);
      PutUpdates(cat, rows, i, UpdatedRow(f, e, rows[i], supplied));
  }

  lemma PutLineIsStep(f: Feed, cat: Catalog, p: Progress, line: Line)
    requires Represents(cat, p.rows)
    ensures match Step(f, p, line)
            case None => PutLine(f, cat, line).None?
            case Some(q) => PutLine(f, cat, line).Some? && Represents(PutLine(f, cat, line).value, q.rows)
  {
    var attrs := Extracted(f.codec, line.record, line.ms);
    forall fk | IsForeignKey(fk) && RefAttr(fk) in attrs
      ensures MasterIn(cat, f.ent, line.entity, attrs, fk) == Refer(p.rows, f.ent, line.entity, attrs, fk)
    {
      GetIsFind(cat, p.rows, RefTarget(fk), f.ent, MasterKey(attrs[RefAttr(fk)]));
    }
    PlanTyped(f.codec, line.entity, attrs, MastersOf(p.rows, f.ent, line.entity, attrs));
    if PlanOf(f, p.rows, line).Some? {
      PutIsUpsert(f, line.entity, PlanOf(f, p.rows, line).value, cat, p.rows);
    }
  }

  /** A batch of records is a fold of map updates: it raises exactly when the fold fails, and
      otherwise leaves exactly the rows of the folded map. */
  lemma {:induction false} SyncRefinesMap(f: Feed, cat: Catalog, p: Progress, lines: seq<Line>)
    requires Represents(cat, p.rows)
    ensures match Fold(Reader(f), p, lines)
            case None => Fold(Putter(f), cat, lines).None?
            case Some(q) =>
              Fold(Putter(f), cat, lines).Some? && Represents(Fold(Putter(f), cat, lines).value, q.rows)
  {
    if lines != [] {
      var n := |lines| - 1;
      SyncRefinesMap(f, cat, p, lines[..n]);
      if Fold(Reader(f), p, lines[..n]).Some? {
        PutLineIsStep(f, Fold(Putter(f), cat, lines[..n]).value, Fold(Reader(f), p, lines[..n]).value, lines[n]);
      }
    }
  }

  /** Unique keys are exactly what lets the rows be such a map. */
  lemma UniqueKeysRepresentable(rows: seq<Row>)
    ensures UniqueKeys(rows) <==> exists cat: Catalog :: Represents(cat, rows)
  {
    if UniqueKeys(rows) {
      var cat := Catalog(map i | 0 <= i < |rows| :: KeyOfRow(rows[i]) := Entry(i, rows[i].cols), |rows|);
      assert Represents(cat, rows);
    }
    if cat: Catalog :| Represents(cat, rows) {
      forall i, j | 0 <= i < j < |rows|
        ensures KeyOfRow(rows[i]) != KeyOfRow(rows[j])
      {
        assert cat.entries[KeyOfRow(rows[i])].id == i;
      }
    }
  }
}
