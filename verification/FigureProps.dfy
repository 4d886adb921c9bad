/** What the stored figures of an item are (src/app/observation/aggregates.py:50-151), said of the
    rows themselves. Where rows tie in the order of a query any of them may be the one used, so
    such a figure has readings. */
module FigureProps {
  import opened Basics
  import opened Folds
  import opened Tables
  import opened Aggregates
  import opened AggregateProps

  // ---- rows that count -----------------------------------------------------------------------------

  /** The row counts for the item: it is the item's and is not lost. */
  predicate Usable(r: Row, e: Entity, item: Id) {
    r.entity == e && Cell(r.cols, ItemId) == Ref(item) && (r.observability.Fresh? || r.observability.Stale?)
  }

  function NumberIn(r: Row, c: Column): real {
    match Cell(r.cols, c) case Num(x) => x case _ => 0.0
  }

  lemma {:induction false} QueryAppend(first: seq<Row>, second: seq<Row>, e: Entity, item: Id)
    ensures Query(first + second, e, item) == Query(first, e, item) + Query(second, e, item)
  {
    if second == [] {
      assert first + second == first;
    } else {
      var n := |second| - 1;
      QueryAppend(first, second[..n], e, item);
      assert (first + second)[..|first| + n] == first + second[..n];
    }
  }

  lemma QueryHolds(rows: seq<Row>, e: Entity, item: Id, r: Row)
    ensures r in Query(rows, e, item) <==> r in rows && Usable(r, e, item)
  {
  }

  // ---- stock ---------------------------------------------------------------------------------------

  /** The total of a query is the sum of its quantities: of none, of one, of two parts. */
  lemma {:induction false} TotalStockAdds(first: seq<Row>, second: seq<Row>)
    ensures TotalStock([]) == 0.0
    ensures forall r :: TotalStock([r]) == NumberIn(r, Quantity)
    ensures TotalStock(first + second) == TotalStock(first) + TotalStock(second)
  {
    forall r
      ensures TotalStock([r]) == NumberIn(r, Quantity)
    {
      assert [r][..0] == [];
    }
    if second == [] {
      assert first + second == first;
    } else {
      var n := |second| - 1;
      TotalStockAdds(first, second[..n]);
      assert (first + second)[..|first| + n] == first + second[..n];
    }
  }

  function StockOf(item: Id): Row -> real {
    (r: Row) => if Usable(r, StockLevel, item) then NumberIn(r, Quantity) else 0.0
  }

  /** The exact stock of an item: the quantities of its stock rows, whatever their warehouse. */
  function ExactStock(rows: seq<Row>, item: Id): real {
    SumOver(StockOf(item), rows)
  }

  lemma {:induction false} TotalIsExactStock(rows: seq<Row>, item: Id)
    ensures TotalStock(Query(rows, StockLevel, item)) == ExactStock(rows, item)
  {
    if rows != [] {
      var n := |rows| - 1;
      TotalIsExactStock(rows[..n], item);
      SumOverMore(StockOf(item), rows[..n], rows[n]);
      assert rows == rows[..n] + [rows[n]];
      TotalStockAdds(Query(rows[..n], StockLevel, item), [rows[n]]);
    }
  }

  /** One more stock row raises the exact stock by its quantity, wherever it stands. */
  lemma OneMoreStockRow(before: seq<Row>, r: Row, after: seq<Row>, item: Id, quantity: real)
    requires Usable(r, StockLevel, item) && Cell(r.cols, Quantity) == Num(quantity)
    ensures ExactStock(before + [r] + after, item) == ExactStock(before + after, item) + quantity
  {
    SumOverInserted(StockOf(item), before, r, after);
  }

  // ---- the row that an ordered query uses ------------------------------------------------------------

  /** `a` comes before `b`: later by the column, NULL being last, and of the same place created
      later. */
  predicate Later(a: Row, b: Row, key: Column) {
    var x, y := Cell(a.cols, key), Cell(b.cols, key);
    if x.Day? && y.Day? then x.d > y.d || (x.d == y.d && a.createdAt > b.createdAt)
    else if x.Time? && y.Time? then x.t > y.t || (x.t == y.t && a.createdAt > b.createdAt)
    else if !x.Day? && !x.Time? && !y.Day? && !y.Time? then a.createdAt > b.createdAt
    else x.Time? || (x.Day? && !y.Time?)
  }

  lemma LaterIsNewer(a: Row, b: Row, key: Column)
    ensures Later(a, b, key) <==> Newer(a, b, key)
  {
  }

  /** The query, ordered by the column, may answer row `i` first. */
  ghost predicate Newest(rows: seq<Row>, e: Entity, item: Id, key: Column, i: Id) {
    && i < |rows| && Usable(rows[i], e, item)
    && forall j: Id :: j < |rows| && Usable(rows[j], e, item) ==> !Later(rows[j], rows[i], key)
  }

  lemma LatestIsAReading(rows: seq<Row>, e: Entity, item: Id, key: Column) returns (i: Id)
    requires Query(rows, e, item) != []
    ensures var q := Query(rows, e, item);
            Newest(rows, e, item, key, i) && rows[i] == q[Latest(q, key, None).value]
  {
    var q := Query(rows, e, item);
    var best := Latest(q, key, None).value;
    assert q[best] in q;
    i :| 0 <= i < |rows| && rows[i] == q[best];
    forall j: Id | j < |rows| && Usable(rows[j], e, item)
      ensures !Later(rows[j], rows[i], key)
    {
      assert rows[j] in q;
      var k :| 0 <= k < |q| && q[k] == rows[j];
      LatestIsNewest(q, key, None, k);
      LaterIsNewer(rows[j], rows[i], key);
    }
  }

  lemma NoneUsable(rows: seq<Row>, e: Entity, item: Id)
    ensures Query(rows, e, item) == [] <==> forall i: Id :: i < |rows| ==> !Usable(rows[i], e, item)
  {
    var q := Query(rows, e, item);
    if q != [] {
      assert q[0] in q;
      var i :| 0 <= i < |rows| && rows[i] == q[0];
    } else {
      forall i: Id | i < |rows|
        ensures !Usable(rows[i], e, item)
      {
        assert rows[i] !in q;
      }
    }
  }

  // ---- daily consumption -----------------------------------------------------------------------------

  /** The days from the start to the end of the period; thirty without a usable one. */
  function DaysOf(r: Row): int {
    var from, until := Cell(r.cols, PeriodStart), Cell(r.cols, PeriodEnd);
    if !from.Day? || !until.Day? || until.d <= from.d then 30 else until.d - from.d
  }

  lemma PeriodIsDays(r: Row)
    ensures PeriodDays(r) == DaysOf(r) && DaysOf(r) > 0
  {
  }

  /** `daily` is the consumption of the item a day, exactly, by its newest consumption row. */
  ghost predicate UsesDaily(rows: seq<Row>, item: Id, daily: real) {
    exists i: Id :: Newest(rows, Consumption, item, PeriodEnd, i)
                    && DaysOf(rows[i]) > 0 && daily == NumberIn(rows[i], Quantity) / DaysOf(rows[i]) as real
  }

  ghost predicate Consumed(rows: seq<Row>, item: Id) {
    exists i: Id :: i < |rows| && Usable(rows[i], Consumption, item)
  }

  lemma DailyIsAReading(rows: seq<Row>, item: Id)
    ensures var daily := AvgDailyConsumption(Query(rows, Consumption, item));
            (daily.Some? <==> Consumed(rows, item)) && (daily.Some? ==> UsesDaily(rows, item, daily.value))
  {
    var q := Query(rows, Consumption, item);
    NoneUsable(rows, Consumption, item);
    if q != [] {
      var i := LatestIsAReading(rows, Consumption, item, PeriodEnd);
      PeriodIsDays(rows[i]);
    }
  }

  // ---- deliveries ------------------------------------------------------------------------------------

  /** The order is open and expected at `t`. */
  predicate Expected(r: Row, item: Id, t: int) {
    Usable(r, PurchaseOrder, item) && Cell(r.cols, Status) == Text("open") && Cell(r.cols, ExpectedAt) == Time(t)
  }

  /** `t` is the earliest time at which an open order of the item is expected, if there is one. */
  ghost predicate NextIs(rows: seq<Row>, item: Id, t: Option<int>) {
    && (t.Some? ==> exists i: Id :: i < |rows| && Expected(rows[i], item, t.value))
    && (forall i: Id, u: int :: i < |rows| && Expected(rows[i], item, u) ==> t.Some? && t.value <= u)
  }

  lemma NextDeliveryIs(rows: seq<Row>, item: Id)
    ensures NextIs(rows, item, NextExpectedDelivery(Query(rows, PurchaseOrder, item)))
  {
    var q := Query(rows, PurchaseOrder, item);
    var t := NextExpectedDelivery(q);
    if t.Some? {
      var k :| 0 <= k < |q| && OpenOrder(q[k]) && Cell(q[k].cols, ExpectedAt) == Time(t.value);
      assert q[k] in q;
      var i :| 0 <= i < |rows| && rows[i] == q[k];
      assert Expected(rows[i], item, t.value);
    }
    forall i: Id, u: int | i < |rows| && Expected(rows[i], item, u)
      ensures t.Some? && t.value <= u
    {
      assert rows[i] in q;
      var k :| 0 <= k < |q| && q[k] == rows[i];
      assert OpenOrder(q[k]);
    }
  }

  /** A received order with an expected and a received time. */
  predicate Delivered(r: Row) {
    Cell(r.cols, Status) == Text("received") && Cell(r.cols, ExpectedAt).Time? && Cell(r.cols, ReceivedAt).Time?
  }

  /** Whole days from the expected to the received time; an early delivery is late by less than
      nothing. */
  function DaysLate(r: Row): int
    requires Delivered(r)
  {
    (Cell(r.cols, ReceivedAt).t - Cell(r.cols, ExpectedAt).t) / 86_400_000_000
  }

  lemma LateDaysAre(r: Row)
    ensures Received(r) <==> Delivered(r)
    ensures Delivered(r) ==> LateDays(r) == DaysLate(r)
  {
  }

  predicate DeliveredOf(r: Row, item: Id) {
    Usable(r, PurchaseOrder, item) && Delivered(r)
  }

  function DeliveryOf(item: Id): Row -> real {
    (r: Row) => if DeliveredOf(r, item) then 1.0 else 0.0
  }

  function LatenessOfItem(item: Id): Row -> real {
    (r: Row) => if DeliveredOf(r, item) then DaysLate(r) as real else 0.0
  }

  lemma {:induction false} DelaysAddUp(rows: seq<Row>, item: Id)
    ensures var delays := Delays(Query(rows, PurchaseOrder, item));
            && |delays| as real == SumOver(DeliveryOf(item), rows)
            && Sum(delays) as real == SumOver(LatenessOfItem(item), rows)
  {
    if rows != [] {
      var n := |rows| - 1;
      DelaysAddUp(rows[..n], item);
      SumOverMore(DeliveryOf(item), rows[..n], rows[n]);
      SumOverMore(LatenessOfItem(item), rows[..n], rows[n]);
      assert rows == rows[..n] + [rows[n]];
      LateDaysAre(rows[n]);
      var q := Query(rows[..n], PurchaseOrder, item);
      assert (q + [rows[n]])[..|q|] == q;
      var delays := Delays(q);
      if DeliveredOf(rows[n], item) {
        assert (delays + [DaysLate(rows[n])])[..|delays|] == delays;
      }
    }
  }

  /** `delay` is the average lateness of the item's received orders, if there are any. */
  predicate DelayIs(rows: seq<Row>, item: Id, delay: Option<real>) {
    var count, total := SumOver(DeliveryOf(item), rows), SumOver(LatenessOfItem(item), rows);
    if count == 0.0 then delay.None? else delay == Some(total / count)
  }

  lemma DelayIsMean(rows: seq<Row>, item: Id)
    ensures DelayIs(rows, item, AvgSupplierDelay(Query(rows, PurchaseOrder, item)))
  {
    DelaysAddUp(rows, item);
  }

  // ---- prices ----------------------------------------------------------------------------------------

  /** `i` and `j` are rows that the price query may answer first and second. */
  ghost predicate TwoNewest(rows: seq<Row>, item: Id, i: Id, j: Id) {
    && Newest(rows, Price, item, ValidFrom, i)
    && j < |rows| && j != i && Usable(rows[j], Price, item)
    && forall k: Id :: k < |rows| && k != i && Usable(rows[k], Price, item) ==> !Later(rows[k], rows[j], ValidFrom)
  }

  ghost predicate OnePrice(rows: seq<Row>, item: Id, i: Id) {
    && i < |rows| && Usable(rows[i], Price, item)
    && forall k: Id :: k < |rows| && k != i ==> !Usable(rows[k], Price, item)
  }

  /** The newest price and its relative change from the newest of the others; no change without
      another price, or from a price of zero. */
  ghost predicate PricesAre(rows: seq<Row>, item: Id, last: Option<real>, trend: Option<real>) {
    || (last.None? && trend.None? && Unpriced(rows, item))
    || PricedOnce(rows, item, last, trend)
    || PricesCompared(rows, item, last, trend)
  }

  ghost predicate Unpriced(rows: seq<Row>, item: Id) {
    forall k: Id :: k < |rows| ==> !Usable(rows[k], Price, item)
  }

  ghost predicate PricedOnce(rows: seq<Row>, item: Id, last: Option<real>, trend: Option<real>) {
    exists i: Id :: OnePrice(rows, item, i) && last == Some(NumberIn(rows[i], UnitPrice)) && trend.None?
  }

  ghost predicate PricesCompared(rows: seq<Row>, item: Id, last: Option<real>, trend: Option<real>) {
    exists i: Id, j: Id ::
      TwoNewest(rows, item, i, j) && last == Some(NumberIn(rows[i], UnitPrice))
      && trend == Change(NumberIn(rows[i], UnitPrice), NumberIn(rows[j], UnitPrice))
  }

  function Change(newest: real, older: real): Option<real> {
    if older == 0.0 then None else Some((newest - older) / older)
  }

  /** The place of row `k` in the answer of the query. */
  function Place(rows: seq<Row>, e: Entity, item: Id, k: nat): nat
    requires k <= |rows|
  {
    |Query(rows[..k], e, item)|
  }

  lemma PlacedRow(rows: seq<Row>, e: Entity, item: Id, k: nat)
    requires k < |rows| && Usable(rows[k], e, item)
    ensures var q := Query(rows, e, item);
            Place(rows, e, item, k) < |q| && q[Place(rows, e, item, k)] == rows[k]
  {
    assert rows[..k + 1][..k] == rows[..k];
    assert rows == rows[..k + 1] + rows[k + 1..];
    QueryAppend(rows[..k + 1], rows[k + 1..], e, item);
  }

  lemma PlacesIncrease(rows: seq<Row>, e: Entity, item: Id, k: nat, m: nat)
    requires k < m < |rows| && Usable(rows[k], e, item)
    ensures Place(rows, e, item, k) < Place(rows, e, item, m)
  {
    assert rows[..m][..k] == rows[..k];
    PlacedRow(rows[..m], e, item, k);
  }

  lemma {:induction false} PlaceOf(rows: seq<Row>, e: Entity, item: Id, p: nat) returns (k: nat)
    requires p < |Query(rows, e, item)|
    ensures k < |rows| && Usable(rows[k], e, item) && Place(rows, e, item, k) == p && rows[k] == Query(rows, e, item)[p]
  {
    var n := |rows| - 1;
    if p < |Query(rows[..n], e, item)| {
      k := PlaceOf(rows[..n], e, item, p);
      assert rows[..n][..k] == rows[..k];
    } else {
      k := n;
    }
  }

  lemma TwoNewestFound(rows: seq<Row>, item: Id, p: Id, r: Id) returns (i: nat, j: nat)
    requires NewestTwo(Query(rows, Price, item), p, r)
    ensures TwoNewest(rows, item, i, j)
    ensures rows[i] == Query(rows, Price, item)[p] && rows[j] == Query(rows, Price, item)[r]
  {
    var q := Query(rows, Price, item);
    i := PlaceOf(rows, Price, item, p);
    j := PlaceOf(rows, Price, item, r);
    forall k: Id | k < |rows| && Usable(rows[k], Price, item)
      ensures !Later(rows[k], rows[i], ValidFrom)
      ensures k != i ==> !Later(rows[k], rows[j], ValidFrom)
    {
      PlacedRow(rows, Price, item, k);
      LaterIsNewer(rows[k], rows[i], ValidFrom);
      LaterIsNewer(rows[k], rows[j], ValidFrom);
      if k < i {
        PlacesIncrease(rows, Price, item, k, i);
      } else if i < k {
        PlacesIncrease(rows, Price, item, i, k);
      }
    }
  }

  lemma OnePriceFound(rows: seq<Row>, item: Id) returns (i: nat)
    requires |Query(rows, Price, item)| == 1
    ensures OnePrice(rows, item, i) && rows[i] == Query(rows, Price, item)[0]
  {
    i := PlaceOf(rows, Price, item, 0);
    forall k: Id | k < |rows| && k != i
      ensures !Usable(rows[k], Price, item)
    {
      if Usable(rows[k], Price, item) {
        PlacedRow(rows, Price, item, k);
        if k < i {
          PlacesIncrease(rows, Price, item, k, i);
        } else {
          PlacesIncrease(rows, Price, item, i, k);
        }
      }
    }
  }

  lemma AmountIsNumber(r: Row, c: Column)
    ensures Amount(r, c) == NumberIn(r, c)
  {
  }

  lemma TrendIsChange(newest: real, older: real)
    ensures Relative(newest, Some(older)) == Change(newest, older)
  {
  }

  lemma ComparedPrices(rows: seq<Row>, item: Id, p: Id, r: Id, trend: Option<real>)
    requires NewestTwo(Query(rows, Price, item), p, r) && TrendOf(Query(rows, Price, item), p, r, trend)
    ensures PricesCompared(rows, item, Some(Amount(Query(rows, Price, item)[p], UnitPrice)), trend)
  {
    var q := Query(rows, Price, item);
    var i, j := TwoNewestFound(rows, item, p, r);
    AmountIsNumber(q[p], UnitPrice);
    AmountIsNumber(q[r], UnitPrice);
    TrendIsChange(Amount(q[p], UnitPrice), Amount(q[r], UnitPrice));
    assert trend == Change(NumberIn(rows[i], UnitPrice), NumberIn(rows[j], UnitPrice));
  }

  lemma PriceTrendIs(rows: seq<Row>, item: Id)
    ensures var q := Query(rows, Price, item);
            PricesAre(rows, item, PriceTrend(q).0, PriceTrend(q).1)
  {
    var q := Query(rows, Price, item);
    TrendComparesNewestTwo(q);
    if q == [] {
      NoneUsable(rows, Price, item);
    } else if |q| == 1 {
      var i := OnePriceFound(rows, item);
      AmountIsNumber(q[0], UnitPrice);
      assert PricedOnce(rows, item, PriceTrend(q).0, PriceTrend(q).1);
    } else {
      var p: Id, r: Id :| NewestTwo(q, p, r) && PriceTrend(q).0 == Some(Amount(q[p], UnitPrice))
        && TrendOf(q, p, r, PriceTrend(q).1);
      ComparedPrices(rows, item, p, r, PriceTrend(q).1);
    }
  }

  // ---- the figures -----------------------------------------------------------------------------------

  function Rounded(x: Option<real>): Option<real> {
    match x case None => None case Some(r) => Some(Round4(r))
  }

  /** The days that the exact stock lasts; nothing is said of an item that is not consumed. */
  ghost predicate CoverIs(rows: seq<Row>, item: Id, daily: Option<real>, cover: Option<real>) {
    if daily.Some? && daily.value > 0.0 then cover == Some(Round4(ExactStock(rows, item) / daily.value))
    else cover.None?
  }

  ghost predicate DailyIs(rows: seq<Row>, item: Id, daily: Option<real>) {
    (daily.Some? <==> Consumed(rows, item)) && (daily.Some? ==> UsesDaily(rows, item, daily.value))
  }

  /** Each stored figure: an exact value of the item's rows, rounded to four decimals once. */
  ghost predicate FiguresSay(rows: seq<Row>, item: Id, f: Figures) {
    && SupplySays(rows, item, f.avgDaily, f.cover)
    && NextIs(rows, item, f.nextDelivery)
    && PriceSays(rows, item, f.lastPrice, f.trend)
    && DelaySays(rows, item, f.avgDelay)
  }

  ghost predicate SupplySays(rows: seq<Row>, item: Id, avgDaily: Option<real>, cover: Option<real>) {
    exists daily: Option<real> ::
      DailyIs(rows, item, daily) && avgDaily == Rounded(daily) && CoverIs(rows, item, daily, cover)
  }

  ghost predicate PriceSays(rows: seq<Row>, item: Id, lastPrice: Option<real>, change: Option<real>) {
    exists last: Option<real>, trend: Option<real> ::
      PricesAre(rows, item, last, trend) && lastPrice == Rounded(last) && change == Rounded(trend)
  }

  ghost predicate DelaySays(rows: seq<Row>, item: Id, avgDelay: Option<real>) {
    exists delay: Option<real> :: DelayIs(rows, item, delay) && avgDelay == Rounded(delay)
  }

  ghost predicate Stocked(rows: seq<Row>, item: Id) {
    exists i: Id :: i < |rows| && Usable(rows[i], StockLevel, item)
  }

  lemma KeptIsRounded(x: Option<real>)
    ensures Keep4(x) == Rounded(x)
  {
  }

  lemma FiguresAre(rows: seq<Row>, item: Id)
    requires FiguresOf(rows, item).Some?
    ensures var f, daily := FiguresOf(rows, item).value, AvgDailyConsumption(Query(rows, Consumption, item));
            && f.avgDaily == Rounded(daily)
            && CoverIs(rows, item, daily, f.cover)
            && f.nextDelivery == NextExpectedDelivery(Query(rows, PurchaseOrder, item))
            && f.lastPrice == Rounded(PriceTrend(Query(rows, Price, item)).0)
            && f.trend == Rounded(PriceTrend(Query(rows, Price, item)).1)
            && f.avgDelay == Rounded(AvgSupplierDelay(Query(rows, PurchaseOrder, item)))
  {
    TotalIsExactStock(rows, item);
  }

  lemma SupplyMeans(rows: seq<Row>, item: Id)
    requires FiguresOf(rows, item).Some?
    ensures SupplySays(rows, item, FiguresOf(rows, item).value.avgDaily, FiguresOf(rows, item).value.cover)
  {
    FiguresAre(rows, item);
    DailyIsAReading(rows, item);
    assert DailyIs(rows, item, AvgDailyConsumption(Query(rows, Consumption, item)));
  }

  lemma PricesMean(rows: seq<Row>, item: Id)
    requires FiguresOf(rows, item).Some?
    ensures PriceSays(rows, item, FiguresOf(rows, item).value.lastPrice, FiguresOf(rows, item).value.trend)
  {
    FiguresAre(rows, item);
    PriceTrendIs(rows, item);
  }

  lemma DelaysMean(rows: seq<Row>, item: Id)
    requires FiguresOf(rows, item).Some?
    ensures DelaySays(rows, item, FiguresOf(rows, item).value.avgDelay)
  {
    FiguresAre(rows, item);
    DelayIsMean(rows, item);
  }

  lemma DeliveriesMean(rows: seq<Row>, item: Id)
    requires FiguresOf(rows, item).Some?
    ensures NextIs(rows, item, FiguresOf(rows, item).value.nextDelivery)
  {
    FiguresAre(rows, item);
    NextDeliveryIs(rows, item);
  }

  lemma StockedHasFigures(rows: seq<Row>, item: Id)
    ensures FiguresOf(rows, item).Some? <==> Stocked(rows, item)
  {
    NoneUsable(rows, StockLevel, item);
  }

  /** An item has figures exactly when it has stock that is not lost, and they are what its rows
      say. */
  lemma FiguresMean(rows: seq<Row>, item: Id)
    ensures FiguresOf(rows, item).Some? <==> Stocked(rows, item)
    ensures FiguresOf(rows, item).Some? ==> FiguresSay(rows, item, FiguresOf(rows, item).value)
  {
    StockedHasFigures(rows, item);
    if FiguresOf(rows, item).Some? {
      SupplyMeans(rows, item);
      PricesMean(rows, item);
      DelaysMean(rows, item);
      DeliveriesMean(rows, item);
    }
  }

  /** One of the numbers that are stored for an item. */
  predicate Figure(f: Figures, x: real) {
    Some(x) in [f.avgDaily, f.cover, f.lastPrice, f.trend, f.avgDelay]
  }

  /** The item has figures, one of which has more than fourteen digits before the point. */
  ghost predicate TooBig(rows: seq<Row>, item: Id) {
    && FiguresOf(rows, item).Some?
    && exists x: real :: Figure(FiguresOf(rows, item).value, x)
                         && (x <= -100_000_000_000_000.0 || 100_000_000_000_000.0 <= x)
  }

  lemma RoundedFits(x: Option<real>)
    ensures Rounded(x).Some? ==> (Fits(Rounded(x).value) <==>
                                  -100_000_000_000_000.0 < Rounded(x).value < 100_000_000_000_000.0)
  {
    if x.Some? {
      Round4Idempotent(x.value);
      FitsFourteenDigits(Round4(x.value));
    }
  }

  lemma FiguresFitMeans(f: Figures)
    requires forall x :: Figure(f, x) ==> (Fits(x) <==> -100_000_000_000_000.0 < x < 100_000_000_000_000.0)
    ensures FiguresFit(f) <==> forall x :: Figure(f, x) ==> -100_000_000_000_000.0 < x < 100_000_000_000_000.0
  {
    assert f.avgDaily.Some? ==> Figure(f, f.avgDaily.value);
    assert f.cover.Some? ==> Figure(f, f.cover.value);
    assert f.lastPrice.Some? ==> Figure(f, f.lastPrice.value);
    assert f.trend.Some? ==> Figure(f, f.trend.value);
    assert f.avgDelay.Some? ==> Figure(f, f.avgDelay.value);
  }

  /** An item overflows exactly when one of its figures is too big. */
  lemma OverflowMeans(rows: seq<Row>, item: Id)
    ensures Overflows(rows, item) <==> TooBig(rows, item)
  {
    if FiguresOf(rows, item).Some? {
      FiguresAre(rows, item);
      var daily := AvgDailyConsumption(Query(rows, Consumption, item));
      RoundedFits(daily);
      RoundedFits(Cover(TotalStock(Query(rows, StockLevel, item)), daily));
      RoundedFits(PriceTrend(Query(rows, Price, item)).0);
      RoundedFits(PriceTrend(Query(rows, Price, item)).1);
      RoundedFits(AvgSupplierDelay(Query(rows, PurchaseOrder, item)));
      FiguresFitMeans(FiguresOf(rows, item).value);
    }
  }

  /** Another warehouse's stock of an item adds its quantity to what is divided by the daily
      consumption, and changes no other figure. */
  lemma OneMoreWarehouse(before: seq<Row>, r: Row, after: seq<Row>, item: Id, quantity: real, daily: real)
    requires Usable(r, StockLevel, item) && Cell(r.cols, Quantity) == Num(quantity) && daily > 0.0
    requires Stocked(before + after, item)
    requires AvgDailyConsumption(Query(before + after, Consumption, item)) == Some(daily)
    ensures var few, more := FiguresOf(before + after, item), FiguresOf(before + [r] + after, item);
            && few.Some? && more.Some?
            && few.value.cover == Some(Round4(ExactStock(before + after, item) / daily))
            && more.value == few.value.(cover := Some(Round4((ExactStock(before + after, item) + quantity) / daily)))
  {
    StockedHasFigures(before + after, item);
    StockedStays(before, r, after, item);
    StockedHasFigures(before + [r] + after, item);
    OneMoreStockRow(before, r, after, item, quantity);
    QueryBeside(before, r, after, Consumption, item);
    QueryBeside(before, r, after, Price, item);
    QueryBeside(before, r, after, PurchaseOrder, item);
    CoverOf(before + after, item, daily);
    CoverOf(before + [r] + after, item, daily);
    OnlyCoverDiffers(before + after, before + [r] + after, item);
  }

  lemma CoverOf(rows: seq<Row>, item: Id, daily: real)
    requires FiguresOf(rows, item).Some? && daily > 0.0
    requires AvgDailyConsumption(Query(rows, Consumption, item)) == Some(daily)
    ensures FiguresOf(rows, item).value.cover == Some(Round4(ExactStock(rows, item) / daily))
  {
    FiguresAre(rows, item);
  }

  lemma OnlyCoverDiffers(rows: seq<Row>, other: seq<Row>, item: Id)
    requires FiguresOf(rows, item).Some? && FiguresOf(other, item).Some?
    requires Query(rows, Consumption, item) == Query(other, Consumption, item)
    requires Query(rows, Price, item) == Query(other, Price, item)
    requires Query(rows, PurchaseOrder, item) == Query(other, PurchaseOrder, item)
    ensures FiguresOf(other, item).value == FiguresOf(rows, item).value.(cover := FiguresOf(other, item).value.cover)
  {
  }

  lemma StockedStays(before: seq<Row>, r: Row, after: seq<Row>, item: Id)
    requires Usable(r, StockLevel, item)
    ensures Stocked(before + [r] + after, item)
  {
    assert (before + [r] + after)[|before|] == r;
  }

  lemma QueryBeside(before: seq<Row>, r: Row, after: seq<Row>, e: Entity, item: Id)
    requires r.entity != e
    ensures Query(before + [r] + after, e, item) == Query(before + after, e, item)
  {
    QueryAppend(before + [r], after, e, item);
    QueryAppend(before, [r], e, item);
    QueryAppend(before, after, e, item);
    assert [r][..0] == [];
    assert Query([r], e, item) == [];
  }
}
