/** What a recomputation guarantees (src/app/observation/aggregates.py). */
module AggregateProps {
  import opened Basics
  import opened Folds
  import opened Tables
  import opened Rules
  import opened SyncSpec
  import opened SyncProps
  import opened Aggregates

  // ---- the ordering queries ---------------------------------------------------------------------

  lemma NewerOrders(a: Row, b: Row, c: Row, key: Column)
    ensures !Newer(b, a, key) && !Newer(c, b, key) ==> !Newer(c, a, key)
    ensures Precedes(a, b, key) ==> !Newer(b, a, key)
    ensures !Precedes(a, b, key) ==> !Newer(a, b, key)
    ensures !Newer(a, a, key)
  {
  }

  /** The last row of the query either takes the place of the best of the others or does not. */
  lemma LatestLast(q: seq<Row>, key: Column, skip: Option<Id>)
    requires q != []
    ensures var n, before := |q| - 1, Latest(q[..|q| - 1], key, skip);
            Latest(q, key, skip) ==
            if skip == Some(n) then before
            else if before.None? || Precedes(q[n], q[before.value], key) then Some(n) else before
  {
  }

  /** The chosen row is one that no other row is newer than, whatever the database does with
      rows that its order does not separate. */
  lemma {:induction false} LatestIsNewest(q: seq<Row>, key: Column, skip: Option<Id>, i: Id)
    requires i < |q| && skip != Some(i)
    ensures var best := Latest(q, key, skip);
            best.Some? && !Newer(q[i], q[best.value], key)
  {
    var n := |q| - 1;
    var before, best := Latest(q[..n], key, skip), Latest(q, key, skip);
    LatestLast(q, key, skip);
    if i < n {
      LatestIsNewest(q[..n], key, skip, i);
      NewerOrders(q[n], q[before.value], q[i], key);
    } else if before.Some? {
      NewerOrders(q[n], q[before.value], q[n], key);
    } else {
      NewerOrders(q[n], q[n], q[n], key);
    }
  }

  /** `i` and `j` are what the price query may answer as its first two rows. */
  ghost predicate NewestTwo(q: seq<Row>, i: Id, j: Id) {
    && i < |q| && j < |q| && i != j
    && (forall k: Id :: k < |q| ==> !Newer(q[k], q[i], ValidFrom))
    && (forall k: Id :: k < |q| && k != i ==> !Newer(q[k], q[j], ValidFrom))
  }

  /** The newest price, against the newest of the others: the trend is their relative change. */
  ghost predicate TrendOf(q: seq<Row>, i: Id, j: Id, trend: Option<real>)
    requires i < |q| && j < |q|
  {
    trend == Relative(Amount(q[i], UnitPrice), Some(Amount(q[j], UnitPrice)))
  }

  lemma NewestTwoFound(q: seq<Row>)
    requires |q| >= 2
    ensures exists i: Id, j: Id :: NewestTwo(q, i, j) && PriceTrend(q).0 == Some(Amount(q[i], UnitPrice))
                           && TrendOf(q, i, j, PriceTrend(q).1)
  {
    var i := Latest(q, ValidFrom, None).value;
    var other := if i == 0 then 1 else 0;
    LatestIsNewest(q, ValidFrom, Some(i), other);
    var j := Latest(q, ValidFrom, Some(i)).value;
    forall k: Id | k < |q|
      ensures !Newer(q[k], q[i], ValidFrom)
      ensures k != i ==> !Newer(q[k], q[j], ValidFrom)
    {
      LatestIsNewest(q, ValidFrom, None, k);
      if k != i {
        LatestIsNewest(q, ValidFrom, Some(i), k);
      }
    }
    assert NewestTwo(q, i, j);
  }

  /** The price query compares the newest price with the newest of the others, for every
      number of rows and however their dates tie; a single price has no trend. */
  lemma TrendComparesNewestTwo(q: seq<Row>)
    ensures q == [] ==> PriceTrend(q) == (None, None)
    ensures |q| == 1 ==> PriceTrend(q) == (Some(Amount(q[0], UnitPrice)), None)
    ensures |q| >= 2 ==> exists i: Id, j: Id :: NewestTwo(q, i, j) && PriceTrend(q).0 == Some(Amount(q[i], UnitPrice))
                                        && TrendOf(q, i, j, PriceTrend(q).1)
  {
    if |q| >= 2 {
      NewestTwoFound(q);
    } else if |q| == 1 {
      LatestIsNewest(q, ValidFrom, None, 0);
      assert Latest(q, ValidFrom, Some(0)).None?;
    }
  }

  /** Rows of a query are rows of the table, in order. */
  lemma {:induction false} QueryPositions(rows: seq<Row>, e: Entity, item: Id, i: Id, j: Id) returns (a: Id, b: Id)
    requires i < j < |Query(rows, e, item)|
    ensures a < b < |rows| && rows[a] == Query(rows, e, item)[i] && rows[b] == Query(rows, e, item)[j]
  {
    var n := |rows| - 1;
    var rest := Query(rows[..n], e, item);
    if j < |rest| {
      a, b := QueryPositions(rows[..n], e, item, i, j);
    } else {
      assert rest[i] in rest;
      a :| 0 <= a < n && rows[..n][a] == rest[i];
      b := n;
    }
  }

  /** With one row per key, two prices of an item in one enterprise are of different suppliers:
      a price trend never compares a supplier's price with its own earlier one. */
  lemma PricesOfDifferentSuppliers(rows: seq<Row>, item: Id, i: Id, j: Id)
    requires UniqueKeys(rows) && i < j < |Query(rows, Price, item)|
    ensures var q := Query(rows, Price, item);
            q[i].ent == q[j].ent ==> Cell(q[i].cols, SupplierId) != Cell(q[j].cols, SupplierId)
  {
    var a, b := QueryPositions(rows, Price, item, i, j);
    assert rows[a] in Query(rows, Price, item) && rows[b] in Query(rows, Price, item);
  }

  /** Hence an item that a single supplier prices has no trend, and no price anomaly is ever
      seen for it, however its price moves. */
  lemma SingleSupplierHasNoTrend(rows: seq<Row>, item: Id)
    requires UniqueKeys(rows)
    requires forall r, s :: r in rows && s in rows && Trusted(r, Price, item) && Trusted(s, Price, item) ==>
               r.ent == s.ent && Cell(r.cols, SupplierId) == Cell(s.cols, SupplierId)
    ensures FiguresOf(rows, item).Some? ==>
              && FiguresOf(rows, item).value.trend.None?
              && PriceAnomalyRule(item, FiguresOf(rows, item).value).None?
  {
    var q := Query(rows, Price, item);
    if |q| >= 2 {
      assert q[0] in q && q[1] in q;
      PricesOfDifferentSuppliers(rows, item, 0, 1);
    }
    TrendComparesNewestTwo(q);
  }

  // ---- only an item's own trusted rows count -----------------------------------------------------

  predicate Counts(r: Row, item: Id) {
    Cell(r.cols, ItemId) == Ref(item) && !r.observability.Lost?
  }

  /** The rows of an item that are not lost, in table order. */
  function Relevant(rows: seq<Row>, item: Id): seq<Row> {
    if rows == [] then []
    else
      var n := |rows| - 1;
      var rest := Relevant(rows[..n], item);
      if Counts(rows[n], item) then rest + [rows[n]] else rest
  }

  lemma {:induction false} QueryRelevant(rows: seq<Row>, e: Entity, item: Id)
    ensures Query(Relevant(rows, item), e, item) == Query(rows, e, item)
  {
    if rows != [] {
      var n := |rows| - 1;
      QueryRelevant(rows[..n], e, item);
      var rest := Relevant(rows[..n], item);
      assert (rest + [rows[n]])[..|rest|] == rest;
    }
  }

  /** An item's figures depend on nothing but its own rows that are not lost. */
  lemma FiguresRelevant(rows: seq<Row>, other: seq<Row>, item: Id)
    requires Relevant(rows, item) == Relevant(other, item)
    ensures FiguresOf(rows, item) == FiguresOf(other, item)
  {
    forall e: Entity
      ensures Query(rows, e, item) == Query(other, e, item)
    {
      QueryRelevant(rows, e, item);
      QueryRelevant(other, e, item);
    }
  }

  // ---- scope ---------------------------------------------------------------------------------------

  function AggregateFor(aggs: seq<Aggregate>, item: Id): Option<Aggregate> {
    match FindAggregate(aggs, item)
    case None => None
    case Some(i) => Some(aggs[i])
  }

  lemma FindTheAggregate(aggs: seq<Aggregate>, i: Id)
    requires OnePerItem(aggs) && i < |aggs|
    ensures FindAggregate(aggs, aggs[i].item) == Some(i)
  {
  }

  function Refreshed(before: Option<Aggregate>, ent: Id, item: Id, figures: Figures, now: int): Aggregate {
    Aggregate(if before.Some? then before.value.ent else ent, item, figures, now)
  }

  lemma PutEffect(aggs: seq<Aggregate>, ent: Id, item: Id, figures: Figures, now: int, other: Id)
    requires OnePerItem(aggs)
    ensures var put := PutAggregate(aggs, ent, item, figures, now);
            && OnePerItem(put)
            && AggregateFor(put, other) ==
               if other == item then Some(Refreshed(AggregateFor(aggs, item), ent, item, figures, now))
               else AggregateFor(aggs, other)
  {
    var put := PutAggregate(aggs, ent, item, figures, now);
    var mine, theirs := FindAggregate(aggs, item), FindAggregate(aggs, other);
    FindTheAggregate(put, if mine.Some? then mine.value else |aggs|);
    if other != item && theirs.Some? {
      FindTheAggregate(put, theirs.value);
    }
  }

  /** A recomputation raises exactly when some item in scope overflows. */
  lemma RecomputeRaises(aggs: seq<Aggregate>, rows: seq<Row>, ent: Id, items: seq<Id>, now: int)
    ensures Recomputed(aggs, rows, ent, items, now).None? <==> exists x :: x in items && Overflows(rows, x)
  {
    FoldFails(Refresher(rows, ent, now), aggs, items, (x: Id) => Overflows(rows, x));
  }

  /** Otherwise it refreshes exactly the aggregates of the items in scope that have
      trustworthy stock, and leaves every other one as it was. */
  lemma {:induction false} RecomputeEffect(aggs: seq<Aggregate>, rows: seq<Row>, ent: Id, items: seq<Id>, now: int,
                                           x: Id)
    requires OnePerItem(aggs) && Recomputed(aggs, rows, ent, items, now).Some?
    ensures var after, figures := Recomputed(aggs, rows, ent, items, now).value, FiguresOf(rows, x);
            && OnePerItem(after)
            && AggregateFor(after, x) ==
               if x in items && figures.Some?
               then Some(Refreshed(AggregateFor(aggs, x), ent, x, figures.value, now))
               else AggregateFor(aggs, x)
  {
    if items != [] {
      var n := |items| - 1;
      RecomputeEffect(aggs, rows, ent, items[..n], now, x);
      assert x in items <==> x in items[..n] || x == items[n];
      if FiguresOf(rows, items[n]).Some? {
        PutEffect(Recomputed(aggs, rows, ent, items[..n], now).value, ent, items[n], FiguresOf(rows, items[n]).value,
            now, x);
      }
    }
  }

  /** An item without trustworthy stock ends up without an aggregate, as documented, exactly
      when it had none before: an older one is kept, not removed. */
  lemma NoStockNoAggregate(aggs: seq<Aggregate>, rows: seq<Row>, ent: Id, items: seq<Id>, now: int, x: Id)
    requires OnePerItem(aggs) && FiguresOf(rows, x).None?
    ensures var after := Recomputed(aggs, rows, ent, items, now);
            after.Some? ==> (AggregateFor(after.value, x).None? <==> AggregateFor(aggs, x).None?)
  {
    if Recomputed(aggs, rows, ent, items, now).Some? {
      RecomputeEffect(aggs, rows, ent, items, now, x);
    }
  }

  function FiguresIn(aggs: seq<Aggregate>, item: Id): Option<Figures> {
    match AggregateFor(aggs, item)
    case None => None
    case Some(a) => Some(a.figures)
  }

  /** The item's aggregate is what a recomputation would write, or it would write none. */
  ghost predicate UpToDate(aggs: seq<Aggregate>, rows: seq<Row>, item: Id) {
    FiguresOf(rows, item).Some? ==> FiguresIn(aggs, item) == FiguresOf(rows, item)
  }

  ghost predicate SameFigures(a: seq<Aggregate>, b: seq<Aggregate>) {
    forall x: Id :: FiguresIn(a, x) == FiguresIn(b, x)
  }

  lemma ScopedItem(aggs: seq<Aggregate>, rows: seq<Row>, ent: Id, some: seq<Id>, all: seq<Id>, now: int, x: Id)
    requires OnePerItem(aggs) && (x in some ==> x in all)
    requires Recomputed(aggs, rows, ent, some, now).Some? && Recomputed(aggs, rows, ent, all, now).Some?
    ensures var part, full := Recomputed(aggs, rows, ent, some, now).value, Recomputed(aggs, rows, ent, all, now).value;
            FiguresIn(part, x) == FiguresIn(full, x) <==> (x in all && x !in some ==> UpToDate(aggs, rows, x))
  {
    RecomputeEffect(aggs, rows, ent, some, now, x);
    RecomputeEffect(aggs, rows, ent, all, now, x);
  }

  /** A scoped recomputation raises exactly when an item in scope overflows, the full sweep when
      any item does. When it returns, every item in scope is up to date; and when both return,
      it gives every item the figures of the full sweep exactly when the rest was up to date. */
  lemma ScopedRefinesFull(aggs: seq<Aggregate>, rows: seq<Row>, ent: Id, scope: set<Id>, now: int)
    requires OnePerItem(aggs)
    ensures var some, all := ItemsInScope(rows, ent, scope), ItemsInScope(rows, ent, {});
            var part, full := Recomputed(aggs, rows, ent, some, now), Recomputed(aggs, rows, ent, all, now);
            && (part.None? <==> exists x :: x in some && Overflows(rows, x))
            && (full.None? <==> exists x :: x in all && Overflows(rows, x))
            && (full.Some? ==> part.Some?)
            && (part.Some? ==> forall x :: x in some ==> UpToDate(part.value, rows, x))
            && (full.Some? ==> (SameFigures(part.value, full.value) <==>
                                forall x :: x in all && x !in some ==> UpToDate(aggs, rows, x)))
  {
    var some, all := ItemsInScope(rows, ent, scope), ItemsInScope(rows, ent, {});
    RecomputeRaises(aggs, rows, ent, some, now);
    RecomputeRaises(aggs, rows, ent, all, now);
    var part, full := Recomputed(aggs, rows, ent, some, now), Recomputed(aggs, rows, ent, all, now);
    if part.Some? {
      forall x | x in some
        ensures UpToDate(part.value, rows, x)
      {
        RecomputeEffect(aggs, rows, ent, some, now, x);
      }
    }
    if full.Some? {
      forall x: Id
        ensures FiguresIn(part.value, x) == FiguresIn(full.value, x) <==>
                    (x in all && x !in some ==> UpToDate(aggs, rows, x))
      {
        ScopedItem(aggs, rows, ent, some, all, now, x);
      }
    }
  }

  // ---- an item that overflows ------------------------------------------------------------------------

  lemma TinyConsumptionOverflows(stock: real, quantity: real)
    requires stock == 1000000000.0 && quantity == 0.0001
    ensures !FitsIfAny(Keep4(Cover(stock, Some(quantity / 30.0))))
  {
    var cover := stock / (quantity / 30.0);
    assert quantity / 30.0 > 0.0;
    DivideCompare(stock, 300000000000000.0, quantity / 30.0);
    assert cover == 300000000000000.0;
    RoundUnitsExact(3_000_000_000_000_000_000);
  }

  lemma TotalOne(stock: Row)
    ensures TotalStock([stock]) == Amount(stock, Quantity)
  {
    assert [stock][..0] == [];
  }

  lemma DailyOne(usage: Row, quantity: real)
    requires Cell(usage.cols, Quantity) == Num(quantity) && Cell(usage.cols, PeriodStart).Null?
    ensures AvgDailyConsumption([usage]) == Some(quantity / 30.0)
  {
    assert [usage][..0] == [];
    LatestLast([usage], PeriodEnd, None);
    assert Latest([usage], PeriodEnd, None) == Some(0);
    MonthlyUse(usage, quantity);
    assert Amount(usage, Quantity) / PeriodDays(usage) as real == quantity / 30.0;
  }

  lemma MonthlyUse(usage: Row, quantity: real)
    requires Cell(usage.cols, Quantity) == Num(quantity) && Cell(usage.cols, PeriodStart).Null?
    ensures Amount(usage, Quantity) == quantity && PeriodDays(usage) as real == 30.0
  {
  }

  lemma OverflowFrom(rows: seq<Row>, item: Id, stock: Row, usage: Row)
    requires Query(rows, StockLevel, item) == [stock] && Cell(stock.cols, Quantity) == Num(1000000000.0)
    requires Query(rows, Consumption, item) == [usage] && Cell(usage.cols, Quantity) == Num(0.0001)
    requires Cell(usage.cols, PeriodStart).Null?
    ensures Overflows(rows, item)
  {
    TotalOne(stock);
    DailyOne(usage, 0.0001);
    TinyConsumptionOverflows(1000000000.0, 0.0001);
    assert FiguresOf(rows, item).value.cover == Keep4(Cover(1000000000.0, Some(0.0001 / 30.0)));
  }

  lemma QueryThree(a: Row, b: Row, c: Row, e: Entity, item: Id)
    ensures Query([a, b, c], e, item) ==
            (if Trusted(a, e, item) then [a] else []) + (if Trusted(b, e, item) then [b] else [])
            + (if Trusted(c, e, item) then [c] else [])
  {
    assert [a, b, c][..2] == [a, b] && [a, b][..1] == [a] && [a][..0] == [];
    assert Query([a], e, item) == if Trusted(a, e, item) then [a] else [];
    assert Query([a, b], e, item) == Query([a], e, item) + if Trusted(b, e, item) then [b] else [];
  }

  function UsedItem(f: Feed, stock: real, quantity: real): seq<Row> {
    [NewRow(f, Item, map[Sku := Text("A")]),
     NewRow(f, StockLevel, map[ItemId := Ref(0), Quantity := Num(stock)]),
     NewRow(f, Consumption, map[ItemId := Ref(0), Quantity := Num(quantity)])]
  }

  lemma UsedItemAccepted(f: Feed, stock: real, quantity: real)
    requires Fits(stock) && Fits(quantity)
    ensures forall r :: r in UsedItem(f, stock, quantity) ==> Storable(r.entity, r.cols)
  {
    ItemAccepted("A");
    QuantityAccepted(StockLevel, 0, stock);
    QuantityAccepted(Consumption, 0, quantity);
  }

  lemma UsedItemCells(f: Feed, stock: real, quantity: real)
    requires Scaled(stock) && Scaled(quantity)
    ensures var rows := UsedItem(f, stock, quantity);
            && rows[0].entity == Item && rows[1].entity == StockLevel && rows[2].entity == Consumption
            && Cell(rows[1].cols, ItemId) == Cell(rows[2].cols, ItemId) == Ref(0)
            && Cell(rows[1].cols, Quantity) == Num(stock) && Cell(rows[2].cols, Quantity) == Num(quantity)
            && Cell(rows[2].cols, PeriodStart).Null?
            && rows[1].observability.Fresh? && rows[2].observability.Fresh?
  {
  }

  lemma QueriesOfThree(rows: seq<Row>)
    requires |rows| == 3 && rows[0].entity == Item && rows[1].entity == StockLevel && rows[2].entity == Consumption
    requires Cell(rows[1].cols, ItemId) == Cell(rows[2].cols, ItemId) == Ref(0)
    requires rows[1].observability.Fresh? && rows[2].observability.Fresh?
    ensures Query(rows, StockLevel, 0) == [rows[1]] && Query(rows, Consumption, 0) == [rows[2]]
  {
    assert rows == [rows[0], rows[1], rows[2]];
    QueryThree(rows[0], rows[1], rows[2], StockLevel, 0);
    QueryThree(rows[0], rows[1], rows[2], Consumption, 0);
  }

  /** A thousand million in stock, used at a ten-thousandth a month: the database accepts every
      one of these rows, and refuses the days of cover computed from them. */
  lemma OverflowHappens(f: Feed)
    ensures var rows := UsedItem(f, 1000000000.0, 0.0001);
            (forall r :: r in rows ==> Storable(r.entity, r.cols)) && Overflows(rows, 0)
  {
    RoundUnitsExact(10_000_000_000_000);
    RoundUnitsExact(1);
    UsedItemAccepted(f, 1000000000.0, 0.0001);
    UsedItemCells(f, 1000000000.0, 0.0001);
    var rows := UsedItem(f, 1000000000.0, 0.0001);
    QueriesOfThree(rows);
    OverflowFrom(rows, 0, rows[1], rows[2]);
  }
}
