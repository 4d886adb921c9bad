/** Recomputing item-level aggregates (src/app/observation/aggregates.py). */
module Aggregates {
  import opened Basics
  import opened Folds
  import opened Tables

  const DAYS_IN_MONTH := 30

  /** Rows the computation may use: one entity's rows of an item that are not lost. */
  predicate Trusted(r: Row, e: Entity, item: Id) {
    r.entity == e && Cell(r.cols, ItemId) == Ref(item) && !r.observability.Lost?
  }

  /** The query every figure starts from, in table order. */
  function Query(rows: seq<Row>, e: Entity, item: Id): (q: seq<Row>)
    ensures forall r :: r in q <==> r in rows && Trusted(r, e, item)
  {
    if rows == [] then []
    else
      var n := |rows| - 1;
      var q := Query(rows[..n], e, item);
      assert rows == rows[..n] + [rows[n]];
      if Trusted(rows[n], e, item) then q + [rows[n]] else q
  }

  function Amount(r: Row, c: Column): real {
    var v := Cell(r.cols, c);
    if v.Num? then v.r else 0.0
  }

  // ---- ordering queries -----------------------------------------------------------------------

  /** What a descending order on a column and then the creation time sorts by; NULL is last. */
  datatype SortKey = SortKey(kind: nat, value: int, createdAt: int)

  function SortKeyOf(r: Row, key: Column): SortKey {
    match Cell(r.cols, key)
    case Day(d) => SortKey(1, d, r.createdAt)
    case Time(t) => SortKey(2, t, r.createdAt)
    case _ => SortKey(0, 0, r.createdAt)
  }

  predicate Above(a: SortKey, b: SortKey) {
    || a.kind > b.kind
    || (a.kind == b.kind && (a.value > b.value || (a.value == b.value && a.createdAt > b.createdAt)))
  }

  /** `a` is listed before `b`. */
  predicate Newer(a: Row, b: Row, key: Column) {
    Above(SortKeyOf(a, key), SortKeyOf(b, key))
  }

  /** `a` takes the place of `b`: it is newer, or the order does not separate them and the
      database lists it first. */
  predicate Precedes(a: Row, b: Row, key: Column) {
    Newer(a, b, key) || (!Newer(b, a, key) && a.rank < b.rank)
  }

  /** The newest row by column `key`; of rows that the order does not separate, the one the
      database happens to list first. */
  function Latest(q: seq<Row>, key: Column, skip: Option<Id>): (r: Option<Id>)
    ensures r.Some? ==> r.value < |q| && skip != r
    ensures r.None? ==> forall i: Id :: i < |q| ==> skip == Some(i)
  {
    if q == [] then None
    else
      var n := |q| - 1;
      var best := Latest(q[..n], key, skip);
      if skip == Some(n) then best
      else if best.None? || Precedes(q[n], q[best.value], key) then Some(n)
      else best
  }

  // ---- the figures of one item -----------------------------------------------------------------

  function TotalStock(q: seq<Row>): real {
    if q == [] then 0.0 else TotalStock(q[..|q| - 1]) + Amount(q[|q| - 1], Quantity)
  }

  /** Days a consumption row covers; an unusable period counts as a month. */
  function PeriodDays(r: Row): (d: int)
    ensures d > 0
  {
    var from, until := Cell(r.cols, PeriodStart), Cell(r.cols, PeriodEnd);
    if from.Day? && until.Day? && until.d - from.d > 0 then until.d - from.d else DAYS_IN_MONTH
  }

  function AvgDailyConsumption(q: seq<Row>): Option<real> {
    match Latest(q, PeriodEnd, None)
    case None => None
    case Some(i) => Some(Amount(q[i], Quantity) / PeriodDays(q[i]) as real)
  }

  predicate OpenOrder(r: Row) {
    Cell(r.cols, Status) == Text("open") && Cell(r.cols, ExpectedAt).Time?
  }

  function NextExpectedDelivery(q: seq<Row>): (t: Option<int>)
    ensures t.Some? ==> exists i :: 0 <= i < |q| && OpenOrder(q[i]) && Cell(q[i].cols, ExpectedAt) == Time(t.value)
    ensures forall i :: 0 <= i < |q| && OpenOrder(q[i]) ==> t.Some? && t.value <= Cell(q[i].cols, ExpectedAt).t
  {
    if q == [] then None
    else
      var n := |q| - 1;
      var t := NextExpectedDelivery(q[..n]);
      assert forall i :: 0 <= i < n ==> q[i] == q[..n][i];
      if OpenOrder(q[n]) && (t.None? || Cell(q[n].cols, ExpectedAt).t < t.value)
      then Some(Cell(q[n].cols, ExpectedAt).t)
      else t
  }

  function AmountAt(q: seq<Row>, i: Option<Id>, c: Column): Option<real>
    requires i.Some? ==> i.value < |q|
  {
    if i.Some? then Some(Amount(q[i.value], c)) else None
  }

  function Relative(newest: real, older: Option<real>): Option<real> {
    if older.None? || older.value == 0.0 then None else Some((newest - older.value) / older.value)
  }

  /** The newest price, and its relative change from the one before. */
  function PriceTrend(q: seq<Row>): (Option<real>, Option<real>) {
    match Latest(q, ValidFrom, None)
    case None => (None, None)
    case Some(i) =>
      var newest := Amount(q[i], UnitPrice);
      (Some(newest), Relative(newest, AmountAt(q, Latest(q, ValidFrom, Some(i)), UnitPrice)))
  }

  predicate Received(r: Row) {
    Cell(r.cols, Status) == Text("received") && Cell(r.cols, ExpectedAt).Time? && Cell(r.cols, ReceivedAt).Time?
  }

  /** Whole days a received order came after its expected date; negative when early. */
  function LateDays(r: Row): int
    requires Received(r)
  {
    WholeDays(Cell(r.cols, ReceivedAt).t - Cell(r.cols, ExpectedAt).t)
  }

  function Delays(q: seq<Row>): seq<int> {
    if q == [] then []
    else
      var n := |q| - 1;
      if Received(q[n]) then Delays(q[..n]) + [LateDays(q[n])] else Delays(q[..n])
  }

  function Sum(xs: seq<int>): int {
    if xs == [] then 0 else Sum(xs[..|xs| - 1]) + xs[|xs| - 1]
  }

  function Mean(xs: seq<int>): real
    requires xs != []
  {
    Sum(xs) as real / |xs| as real
  }

  function AvgSupplierDelay(q: seq<Row>): Option<real> {
    if Delays(q) == [] then None else Some(Mean(Delays(q)))
  }

  function Cover(stock: real, daily: Option<real>): Option<real> {
    if daily.Some? && daily.value > 0.0 then Some(stock / daily.value) else None
  }

  function Keep4(x: Option<real>): Option<real> {
    if x.Some? then Some(Round4(x.value)) else None
  }

  /** What an aggregate stores: figures computed exactly, then rounded by their columns. */
  function FiguresFrom(stock: seq<Row>, consumption: seq<Row>, prices: seq<Row>, orders: seq<Row>): Figures {
    var daily, price := AvgDailyConsumption(consumption), PriceTrend(prices);
    Figures(Keep4(daily), Keep4(Cover(TotalStock(stock), daily)), NextExpectedDelivery(orders),
            Keep4(price.0), Keep4(price.1), Keep4(AvgSupplierDelay(orders)))
  }

  /** The figures of an item; None when it has no trustworthy stock. */
  function FiguresOf(rows: seq<Row>, item: Id): Option<Figures> {
    var stock := Query(rows, StockLevel, item);
    if stock == [] then None
    else Some(FiguresFrom(stock, Query(rows, Consumption, item), Query(rows, Price, item),
        Query(rows, PurchaseOrder, item)))
  }

  predicate FitsIfAny(x: Option<real>) {
    x.Some? ==> Fits(x.value)
  }

  /** Every figure fits its `numeric(18,4)` column. */
  predicate FiguresFit(f: Figures) {
    FitsIfAny(f.avgDaily) && FitsIfAny(f.cover) && FitsIfAny(f.lastPrice) && FitsIfAny(f.trend) && FitsIfAny(f.avgDelay)
  }

  /** The item has trustworthy stock and a figure that its column cannot hold. */
  predicate Overflows(rows: seq<Row>, item: Id) {
    FiguresOf(rows, item).Some? && !FiguresFit(FiguresOf(rows, item).value)
  }

  // ---- writing aggregates ------------------------------------------------------------------------

  ghost predicate OnePerItem(aggs: seq<Aggregate>) {
    forall i, j :: 0 <= i < j < |aggs| ==> aggs[i].item != aggs[j].item
  }

  function FindAggregate(aggs: seq<Aggregate>, item: Id): (r: Option<Id>)
    ensures r.Some? ==> r.value < |aggs| && aggs[r.value].item == item
    ensures r.None? ==> forall i :: 0 <= i < |aggs| ==> aggs[i].item != item
  {
    if aggs == [] then None
    else
      var n := |aggs| - 1;
      var earlier := FindAggregate(aggs[..n], item);
      if earlier.Some? then earlier
      else if aggs[n].item == item then Some(n)
      else
        assert forall i :: 0 <= i < n ==> aggs[i] == aggs[..n][i];
        None
  }

  function PutAggregate(aggs: seq<Aggregate>, ent: Id, item: Id, figures: Figures, now: int): seq<Aggregate> {
    match FindAggregate(aggs, item)
    case None => aggs + [Aggregate(ent, item, figures, now)]
    case Some(i) => aggs[i := aggs[i].(figures := figures, computedAt := now)]
  }

  /** One item recomputed; None when the database refuses a figure. */
  function RecomputedOne(aggs: seq<Aggregate>, rows: seq<Row>, ent: Id, item: Id, now: int): Option<seq<Aggregate>> {
    match FiguresOf(rows, item)
    case None => Some(aggs)
    case Some(figures) => if FiguresFit(figures) then Some(PutAggregate(aggs, ent, item, figures, now)) else None
  }

  function Refresher(rows: seq<Row>, ent: Id, now: int): (seq<Aggregate>, Id) -> Option<seq<Aggregate>> {
    (aggs: seq<Aggregate>, item: Id) => RecomputedOne(aggs, rows, ent, item, now)
  }

  /** The items recomputed in order; None as soon as one is refused. */
  function Recomputed(aggs: seq<Aggregate>, rows: seq<Row>, ent: Id, items: seq<Id>, now: int): Option<seq<Aggregate>> {
    Fold(Refresher(rows, ent, now), aggs, items)
  }

  /** The enterprise's items, or those of them in scope; an empty scope means all. */
  function ItemsInScope(rows: seq<Row>, ent: Id, scope: set<Id>): (ids: seq<Id>)
    ensures forall i: Id :: i in ids <==>
              i < |rows| && rows[i].entity == Item && rows[i].ent == ent && (scope == {} || i in scope)
    ensures forall i, j :: 0 <= i < j < |ids| ==> ids[i] < ids[j]
  {
    if rows == [] then []
    else
      var n := |rows| - 1;
      var rest := ItemsInScope(rows[..n], ent, scope);
      assert forall k :: 0 <= k < |rest| ==> rest[k] in rest;
      if rows[n].entity == Item && rows[n].ent == ent && (scope == {} || n in scope) then rest + [n] else rest
  }

  /** None when the database refuses the row. */
  method UpsertAggregate(s: Session, ent: Id, item: Id, figures: Figures, now: int) returns (row: Option<Id>)
    modifies s`db
    ensures row.Some? <==> FiguresFit(figures)
    ensures row.Some? ==> s.db == old(s.db).(aggregates := PutAggregate(old(s.db.aggregates), ent, item, figures, now))
    ensures row.Some? ==> row.value < |s.db.aggregates| && s.db.aggregates[row.value].item == item
                          && s.db.aggregates[row.value].figures == figures
  {
    var existing := FindAggregate(s.db.aggregates, item);
    if !FiguresFit(figures) {
      return None;
    }
    if existing.None? {
      row := Some(|s.db.aggregates|);
      s.db := s.db.(aggregates := s.db.aggregates + [Aggregate(ent, item, figures, now)]);
      return;
    }
    row := existing;
    var updated := s.db.aggregates[row.value].(figures := figures, computedAt := now);
    s.db := s.db.(aggregates := s.db.aggregates[row.value := updated]);
  }

  datatype RecomputeResult = Overflowed | NoStock | Recorded(row: Id)

  method RecomputeOne(s: Session, ent: Id, item: Id, now: int) returns (r: RecomputeResult)
    modifies s`db
    ensures r.Overflowed? <==> Overflows(old(s.db.rows), item)
    ensures r.NoStock? <==> FiguresOf(old(s.db.rows), item).None?
    ensures r.NoStock? ==> s.db == old(s.db)
    ensures r.Recorded? ==> s.db == old(s.db).(aggregates := PutAggregate(
                             old(s.db.aggregates), ent, item, FiguresOf(old(s.db.rows), item).value, now))
  {
    var stock := Query(s.db.rows, StockLevel, item);
    if stock == [] {
      return NoStock;
    }
    var total := 0.0;
    for i := 0 to |stock|
      invariant total == TotalStock(stock[..i])
    {
      assert stock[..i + 1][..i] == stock[..i];
      total := total + Amount(stock[i], Quantity);
    }
    assert stock[..|stock|] == stock;
    var daily := AvgDailyConsumption(Query(s.db.rows, Consumption, item));
    var orders := Query(s.db.rows, PurchaseOrder, item);
    var price := PriceTrend(Query(s.db.rows, Price, item));
    var figures := Figures(Keep4(daily), Keep4(Cover(total, daily)), NextExpectedDelivery(orders),
                           Keep4(price.0), Keep4(price.1), Keep4(AvgSupplierDelay(orders)));
    var id := UpsertAggregate(s, ent, item, figures, now);
    r := if id.Some? then Recorded(id.value) else Overflowed;
  }

  lemma RecomputeNext(aggs: seq<Aggregate>, rows: seq<Row>, ent: Id, ids: seq<Id>, now: int, n: nat)
    requires n < |ids| && Recomputed(aggs, rows, ent, ids[..n], now).Some?
    ensures var next := RecomputedOne(Recomputed(aggs, rows, ent, ids[..n], now).value, rows, ent, ids[n], now);
            && Recomputed(aggs, rows, ent, ids[..n + 1], now) == next
            && (next.None? ==> Recomputed(aggs, rows, ent, ids, now).None?)
  {
    assert ids[..n + 1] == ids[..n] + [ids[n]] && ids == ids[..n] + [ids[n]] + ids[n + 1..];
    FoldNext(Refresher(rows, ent, now), aggs, ids[..n], ids[n], ids[n + 1..]);
  }

  /** The sweep over the items in scope; one refused item aborts it. */
  method RecomputeAll(s: Session, ent: Id, scope: set<Id>, now: int) returns (ok: bool, results: seq<Id>)
    modifies s`db
    ensures var after := Recomputed(old(s.db.aggregates), old(s.db.rows), ent,
                ItemsInScope(old(s.db.rows), ent, scope), now);
            && (ok <==> after.Some?)
            && (ok ==> s.db == old(s.db).(aggregates := after.value))
  {
    var ids := ItemsInScope(s.db.rows, ent, scope);
    results := [];
    for n := 0 to |ids|
      invariant s.db == old(s.db).(aggregates := s.db.aggregates)
      invariant Recomputed(old(s.db.aggregates), old(s.db.rows), ent, ids[..n], now) == Some(s.db.aggregates)
    {
      RecomputeNext(old(s.db.aggregates), s.db.rows, ent, ids, now, n);
      var r := RecomputeOne(s, ent, ids[n], now);
      if r.Overflowed? {
        return false, results;
      }
      if r.Recorded? {
        results := results + [r.row];
      }
    }
    assert ids[..|ids|] == ids;
    ok := true;
  }
}
