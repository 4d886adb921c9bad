/** What risk detection sees and reports (src/app/analysis/rules.py:44-551), said of the rows, the
    aggregates and the tables it leaves. */
module RiskProps {
  import opened Basics
  import opened Folds
  import opened Tables
  import opened Schema
  import opened SyncProps
  import opened Aggregates
  import opened FigureProps
  import opened Rules
  import opened Detection
  import opened DetectionProps

  // ---- what the rules read ---------------------------------------------------------------------------

  /** `lead` is the lead time of the item in days, by its newest lead time row. */
  ghost predicate UsesLead(rows: seq<Row>, item: Id, lead: real) {
    exists i: Id :: Newest(rows, LeadTime, item, AsOf, i) && lead == NumberIn(rows[i], Days)
  }

  ghost predicate HasLead(rows: seq<Row>, item: Id) {
    exists i: Id :: i < |rows| && Usable(rows[i], LeadTime, item)
  }

  lemma LeadIsAReading(rows: seq<Row>, item: Id)
    ensures var lead := LeadTimeDays(rows, item);
            (lead.Some? <==> HasLead(rows, item)) && (lead.Some? ==> UsesLead(rows, item, lead.value))
  {
    NoneUsable(rows, LeadTime, item);
    if Query(rows, LeadTime, item) != [] {
      var i := LatestIsAReading(rows, LeadTime, item, AsOf);
      AmountIsNumber(rows[i], Days);
    }
  }

  /** The row is a demand for the item with a day it is needed by. */
  predicate Demands(r: Row, item: Id) {
    Usable(r, ProductionDemand, item) && Cell(r.cols, NeedBy).Day?
  }

  /** From the calendar day of `now` to the day of the demand. */
  function DaysAhead(r: Row, now: int): int
    requires Cell(r.cols, NeedBy).Day?
  {
    Cell(r.cols, NeedBy).d - now / 86_400_000_000
  }

  lemma {:induction false} NeedDaysHold(q: seq<Row>, day: int)
    ensures day in NeedDays(q) <==> exists i :: 0 <= i < |q| && Cell(q[i].cols, NeedBy) == Day(day)
  {
    if q != [] {
      var n := |q| - 1;
      NeedDaysHold(q[..n], day);
      assert forall i :: 0 <= i < n ==> q[..n][i] == q[i];
      if Cell(q[n].cols, NeedBy) == Day(day) {
        assert day in NeedDays(q);
      }
    }
  }

  lemma NeedsHold(rows: seq<Row>, item: Id, day: int)
    ensures day in Needs(rows, item) <==>
            exists i: Id :: i < |rows| && Demands(rows[i], item) && Cell(rows[i].cols, NeedBy) == Day(day)
  {
    var q := Query(rows, ProductionDemand, item);
    NeedDaysHold(q, day);
    if day in Needs(rows, item) {
      var k :| 0 <= k < |q| && Cell(q[k].cols, NeedBy) == Day(day);
      assert q[k] in q;
      var i :| 0 <= i < |rows| && rows[i] == q[k];
      assert Demands(rows[i], item);
    } else {
      forall i: Id | i < |rows| && Demands(rows[i], item)
        ensures Cell(rows[i].cols, NeedBy) != Day(day)
      {
        assert rows[i] in q;
        var k :| 0 <= k < |q| && q[k] == rows[i];
      }
    }
  }

  // ---- when an aggregate is at risk --------------------------------------------------------------------

  /** The cover ends before `days`: severely when no more than a quarter of them is covered, mildly
      when more than three quarters are. */
  predicate RunsOut(cover: real, days: real, severity: Severity) {
    && days > 0.0 && cover < days
    && severity == if 4.0 * cover <= days then High else if 4.0 * cover <= 3.0 * days then Med else Low
  }

  lemma ShortfallMeans(kind: RiskType, item: Id, cover: real, days: real, severity: Severity)
    ensures Shortfall(kind, item, Some(cover), days) == Some(Candidate(kind, Some(item), None, severity)) <==>
            RunsOut(cover, days, severity)
    ensures Shortfall(kind, item, Some(cover), days).Some? <==> days > 0.0 && cover < days
  {
    if days > 0.0 {
      ShortfallLadder(kind, item, cover, days);
    }
  }

  /** The cover ends before the lead time. */
  ghost predicate OutrunByLead(rows: seq<Row>, item: Id, cover: real, severity: Severity) {
    exists lead: real :: UsesLead(rows, item, lead) && RunsOut(cover, lead, severity)
  }

  /** The cover ends before the soonest of the demands. */
  ghost predicate OutrunByNeed(rows: seq<Row>, item: Id, cover: real, now: int, severity: Severity) {
    exists i: Id ::
      && i < |rows| && Demands(rows[i], item) && RunsOut(cover, DaysAhead(rows[i], now) as real, severity)
      && forall j: Id :: j < |rows| && Demands(rows[j], item) ==> DaysAhead(rows[i], now) <= DaysAhead(rows[j], now)
  }

  /** The price moved by a tenth or more. */
  predicate PriceJumps(trend: real, severity: Severity) {
    var size := if trend < 0.0 then -trend else trend;
    size >= 0.10 && severity == if size >= 0.20 then High else if size >= 0.15 then Med else Low
  }

  /** The aggregate shows a risk of this kind and severity. */
  ghost predicate AtRisk(rows: seq<Row>, a: Aggregate, now: int, kind: RiskType, severity: Severity) {
    var cover := a.figures.cover;
    match kind
    case LikelyShortage => cover.Some? && OutrunByLead(rows, a.item, cover.value, severity)
    case InsufficientUntilNextDelivery =>
      cover.Some? && a.figures.nextDelivery.Some?
      && RunsOut(cover.value, ((a.figures.nextDelivery.value - now) / 86_400_000_000) as real, severity)
    case ProductionStopRisk => cover.Some? && OutrunByNeed(rows, a.item, cover.value, now, severity)
    case PriceAnomaly => a.figures.trend.Some? && PriceJumps(a.figures.trend.value, severity)
    case _ => false
  }

  ghost predicate EveryLeadOutruns(rows: seq<Row>, item: Id, cover: real) {
    HasLead(rows, item) && forall lead: real :: UsesLead(rows, item, lead) ==> lead > 0.0 && cover < lead
  }

  ghost predicate EveryNeedOutruns(rows: seq<Row>, item: Id, cover: real, now: int) {
    && (exists i: Id :: i < |rows| && Demands(rows[i], item))
    && forall i: Id :: i < |rows| && Demands(rows[i], item) ==>
         DaysAhead(rows[i], now) > 0 && cover < DaysAhead(rows[i], now) as real
  }

  /** The aggregate shows a risk of this kind, whichever of the rows that tie is used. */
  ghost predicate SurelyAtRisk(rows: seq<Row>, a: Aggregate, now: int, kind: RiskType) {
    var cover := a.figures.cover;
    match kind
    case LikelyShortage => cover.Some? && EveryLeadOutruns(rows, a.item, cover.value)
    case InsufficientUntilNextDelivery =>
      && cover.Some? && a.figures.nextDelivery.Some?
      && var days := (a.figures.nextDelivery.value - now) / 86_400_000_000;
         days > 0 && cover.value < days as real
    case ProductionStopRisk => cover.Some? && EveryNeedOutruns(rows, a.item, cover.value, now)
    case PriceAnomaly => a.figures.trend.Some? && (a.figures.trend.value >= 0.10 || a.figures.trend.value <= -0.10)
    case _ => false
  }

  function RiskOf(kind: RiskType, item: Id, severity: Severity): Candidate {
    Candidate(kind, Some(item), None, severity)
  }

  lemma ShortageMeans(rows: seq<Row>, a: Aggregate, c: Candidate)
    requires ShortageCandidate(rows, a) == Some(c)
    ensures c == RiskOf(LikelyShortage, a.item, c.severity) && a.figures.cover.Some?
    ensures OutrunByLead(rows, a.item, a.figures.cover.value, c.severity)
  {
    LeadIsAReading(rows, a.item);
    ShortfallMeans(LikelyShortage, a.item, a.figures.cover.value, LeadTimeDays(rows, a.item).value, c.severity);
  }

  lemma SureShortageSeen(rows: seq<Row>, a: Aggregate)
    requires a.figures.cover.Some? && EveryLeadOutruns(rows, a.item, a.figures.cover.value)
    ensures ShortageCandidate(rows, a).Some?
  {
    LeadIsAReading(rows, a.item);
  }

  lemma NextDeliveryMeans(a: Aggregate, now: int, c: Candidate)
    requires NextDeliveryRule(a.item, a.figures, now) == Some(c)
    ensures c == RiskOf(InsufficientUntilNextDelivery, a.item, c.severity)
    ensures a.figures.cover.Some? && a.figures.nextDelivery.Some?
    ensures RunsOut(a.figures.cover.value, ((a.figures.nextDelivery.value - now) / 86_400_000_000) as real, c.severity)
  {
    ShortfallMeans(InsufficientUntilNextDelivery, a.item, a.figures.cover.value,
                   WholeDays(a.figures.nextDelivery.value - now) as real, c.severity);
  }

  /** The soonest need of the rule is the soonest of the demand rows. */
  lemma SoonestIs(rows: seq<Row>, item: Id, now: int) returns (i: Id)
    requires Needs(rows, item) != []
    ensures i < |rows| && Demands(rows[i], item)
    ensures SoonestNeed(Needs(rows, item), WholeDays(now)) == Some(DaysAhead(rows[i], now))
    ensures forall j: Id :: j < |rows| && Demands(rows[j], item) ==> DaysAhead(rows[i], now) <= DaysAhead(rows[j], now)
  {
    var needs := Needs(rows, item);
    var soonest := SoonestNeed(needs, WholeDays(now)).value;
    var k :| 0 <= k < |needs| && soonest == needs[k] - WholeDays(now);
    NeedsHold(rows, item, needs[k]);
    i :| i < |rows| && Demands(rows[i], item) && Cell(rows[i].cols, NeedBy) == Day(needs[k]);
    forall j: Id | j < |rows| && Demands(rows[j], item)
      ensures DaysAhead(rows[i], now) <= DaysAhead(rows[j], now)
    {
      NeedsHold(rows, item, Cell(rows[j].cols, NeedBy).d);
      var m :| 0 <= m < |needs| && needs[m] == Cell(rows[j].cols, NeedBy).d;
    }
  }

  lemma ProductionStopMeans(rows: seq<Row>, a: Aggregate, now: int, c: Candidate)
    requires ProductionStopRule(a.item, a.figures, Needs(rows, a.item), now) == Some(c)
    ensures c == RiskOf(ProductionStopRisk, a.item, c.severity) && a.figures.cover.Some?
    ensures OutrunByNeed(rows, a.item, a.figures.cover.value, now, c.severity)
  {
    var i := SoonestIs(rows, a.item, now);
    ShortfallMeans(ProductionStopRisk, a.item, a.figures.cover.value, DaysAhead(rows[i], now) as real, c.severity);
  }

  lemma SureStopSeen(rows: seq<Row>, a: Aggregate, now: int)
    requires a.figures.cover.Some? && EveryNeedOutruns(rows, a.item, a.figures.cover.value, now)
    ensures ProductionStopRule(a.item, a.figures, Needs(rows, a.item), now).Some?
  {
    var j: Id :| j < |rows| && Demands(rows[j], a.item);
    NeedsHold(rows, a.item, Cell(rows[j].cols, NeedBy).d);
    var i := SoonestIs(rows, a.item, now);
  }

  lemma PriceAnomalyMeans(a: Aggregate, c: Candidate)
    requires PriceAnomalyRule(a.item, a.figures) == Some(c)
    ensures c == RiskOf(PriceAnomaly, a.item, c.severity) && a.figures.trend.Some?
    ensures PriceJumps(a.figures.trend.value, c.severity)
  {
    PriceAnomalyFires(a.item, a.figures);
  }

  /** What the rules see of an aggregate is a risk it shows, of its item and no supplier. */
  lemma SeenIsAtRisk(rows: seq<Row>, ent: Id, now: int, a: Aggregate, c: Candidate)
    requires AggregateSeen(rows, ent, now, a, c)
    ensures a.ent == ent && c == RiskOf(c.kind, a.item, c.severity) && AtRisk(rows, a, now, c.kind, c.severity)
  {
    if ShortageCandidate(rows, a) == Some(c) {
      ShortageMeans(rows, a, c);
    } else if NextDeliveryRule(a.item, a.figures, now) == Some(c) {
      NextDeliveryMeans(a, now, c);
    } else if ProductionStopRule(a.item, a.figures, Needs(rows, a.item), now) == Some(c) {
      ProductionStopMeans(rows, a, now, c);
    } else {
      PriceAnomalyMeans(a, c);
    }
  }

  /** And every risk it surely shows is seen. */
  lemma AtRiskIsSeen(rows: seq<Row>, ent: Id, now: int, a: Aggregate, kind: RiskType) returns (c: Candidate)
    requires a.ent == ent && SurelyAtRisk(rows, a, now, kind)
    ensures AggregateSeen(rows, ent, now, a, c) && c == RiskOf(kind, a.item, c.severity)
  {
    match kind
    case LikelyShortage =>
      SureShortageSeen(rows, a);
      c := ShortageCandidate(rows, a).value;
      ShortageMeans(rows, a, c);
    case InsufficientUntilNextDelivery =>
      c := NextDeliveryRule(a.item, a.figures, now).value;
      NextDeliveryMeans(a, now, c);
    case ProductionStopRisk =>
      SureStopSeen(rows, a, now);
      c := ProductionStopRule(a.item, a.figures, Needs(rows, a.item), now).value;
      ProductionStopMeans(rows, a, now, c);
    case PriceAnomaly =>
      PriceAnomalyFires(a.item, a.figures);
      c := PriceAnomalyRule(a.item, a.figures).value;
      PriceAnomalyMeans(a, c);
  }

  // ---- when a supplier is late, or delivers badly ------------------------------------------------------

  /** The row is a received order of the enterprise from the supplier. */
  predicate DeliveredBy(r: Row, ent: Id, supplier: Id) {
    && r.entity == PurchaseOrder && r.ent == ent && (r.observability.Fresh? || r.observability.Stale?)
    && Cell(r.cols, SupplierId) == Ref(supplier) && Delivered(r)
  }

  function DeliveryFrom(ent: Id, supplier: Id): Row -> real {
    (r: Row) => if DeliveredBy(r, ent, supplier) then 1.0 else 0.0
  }

  function LatenessFrom(ent: Id, supplier: Id): Row -> real {
    (r: Row) => if DeliveredBy(r, ent, supplier) then DaysLate(r) as real else 0.0
  }

  /** At least three deliveries, late by more than three days on average. */
  predicate LateSupplier(rows: seq<Row>, ent: Id, supplier: Id, severity: Severity) {
    var count, total := SumOver(DeliveryFrom(ent, supplier), rows), SumOver(LatenessFrom(ent, supplier), rows);
    && count >= 3.0 && total > 3.0 * count
    && severity == if total >= 6.0 * count then High else if total >= 4.5 * count then Med else Low
  }

  lemma DelaySampleIs(r: Row, ent: Id, supplier: Id)
    ensures DeliveredBy(r, ent, supplier) <==> DelaySample(r, ent) && Cell(r.cols, SupplierId).id == supplier
    ensures DeliveredBy(r, ent, supplier) ==> LateDays(r) == DaysLate(r)
  {
  }

  lemma {:induction false} LatenessAddsUp(rows: seq<Row>, ent: Id, supplier: Id)
    ensures var samples := ValuesOf(DelaySamples(rows, ent), supplier);
            && |samples| as real == SumOver(DeliveryFrom(ent, supplier), rows)
            && Sum(samples) as real == SumOver(LatenessFrom(ent, supplier), rows)
  {
    if rows != [] {
      var n := |rows| - 1;
      LatenessAddsUp(rows[..n], ent, supplier);
      SumOverMore(DeliveryFrom(ent, supplier), rows[..n], rows[n]);
      SumOverMore(LatenessFrom(ent, supplier), rows[..n], rows[n]);
      assert rows == rows[..n] + [rows[n]];
      DelaySampleIs(rows[n], ent, supplier);
      if DelaySample(rows[n], ent) {
        ValuesMore(DelaySamples(rows[..n], ent), (Cell(rows[n].cols, SupplierId).id, LateDays(rows[n])), supplier);
        SumMore(ValuesOf(DelaySamples(rows[..n], ent), supplier), LateDays(rows[n]));
      }
    }
  }

  lemma ValuesMore<K(!new), V>(samples: seq<(K, V)>, last: (K, V), k: K)
    ensures ValuesOf(samples + [last], k) == ValuesOf(samples, k) + if last.0 == k then [last.1] else []
  {
    assert (samples + [last])[..|samples|] == samples;
  }

  lemma SumMore(xs: seq<int>, x: int)
    ensures Sum(xs + [x]) == Sum(xs) + x
  {
    assert (xs + [x])[..|xs|] == xs;
  }

  /** The rule sees a supplier exactly when it is late, and as severely. */
  lemma DelaySeenIsLate(rows: seq<Row>, ent: Id, supplier: Id, c: Candidate)
    ensures DelaySeen(DelaySamples(rows, ent), supplier, c) <==>
              c.kind.SystematicSupplierDelay? && c.item.None? && c.supplier == Some(supplier)
              && LateSupplier(rows, ent, supplier, c.severity)
  {
    var samples := ValuesOf(DelaySamples(rows, ent), supplier);
    LatenessAddsUp(rows, ent, supplier);
    SupplierDelayFires(supplier, samples);
    if SupplierDelayRule(supplier, samples).Some? {
      SupplierDelayLadder(supplier, samples);
    }
  }

  /** The row is a quality record of the item from the supplier, with a defect rate. */
  predicate Inspected(r: Row, ent: Id, item: Id, supplier: Id) {
    && r.entity == QualityRecord && r.ent == ent && (r.observability.Fresh? || r.observability.Stale?)
    && Cell(r.cols, ItemId) == Ref(item) && Cell(r.cols, SupplierId) == Ref(supplier) && Cell(r.cols, DefectRate).Num?
  }

  function InspectionOf(ent: Id, item: Id, supplier: Id): Row -> real {
    (r: Row) => if Inspected(r, ent, item, supplier) then 1.0 else 0.0
  }

  function DefectsOf(ent: Id, item: Id, supplier: Id): Row -> real {
    (r: Row) => if Inspected(r, ent, item, supplier) then Cell(r.cols, DefectRate).r else 0.0
  }

  /** Defect rates above five percent on average. */
  predicate Degrading(rows: seq<Row>, ent: Id, item: Id, supplier: Id, severity: Severity) {
    var count := SumOver(InspectionOf(ent, item, supplier), rows);
    var total := SumOver(DefectsOf(ent, item, supplier), rows);
    && count > 0.0 && total > 0.05 * count
    && severity == if total >= 0.10 * count then High else if total >= 0.075 * count then Med else Low
  }

  lemma QualitySampleIs(r: Row, ent: Id, item: Id, supplier: Id)
    ensures Inspected(r, ent, item, supplier) <==>
              QualitySample(r, ent) && Cell(r.cols, ItemId).id == item && Cell(r.cols, SupplierId).id == supplier
  {
  }

  lemma RealSumMore(xs: seq<real>, x: real)
    ensures RealSum(xs + [x]) == RealSum(xs) + x
  {
    assert (xs + [x])[..|xs|] == xs;
  }

  lemma {:induction false} DefectsAddUp(rows: seq<Row>, ent: Id, item: Id, supplier: Id)
    ensures var samples := ValuesOf(QualitySamples(rows, ent), (item, supplier));
            && |samples| as real == SumOver(InspectionOf(ent, item, supplier), rows)
            && RealSum(samples) == SumOver(DefectsOf(ent, item, supplier), rows)
  {
    if rows != [] {
      var n := |rows| - 1;
      DefectsAddUp(rows[..n], ent, item, supplier);
      SumOverMore(InspectionOf(ent, item, supplier), rows[..n], rows[n]);
      SumOverMore(DefectsOf(ent, item, supplier), rows[..n], rows[n]);
      assert rows == rows[..n] + [rows[n]];
      QualitySampleIs(rows[n], ent, item, supplier);
      if QualitySample(rows[n], ent) {
        var pair := (Cell(rows[n].cols, ItemId).id, Cell(rows[n].cols, SupplierId).id);
        ValuesMore(QualitySamples(rows[..n], ent), (pair, Cell(rows[n].cols, DefectRate).r), (item, supplier));
        RealSumMore(ValuesOf(QualitySamples(rows[..n], ent), (item, supplier)), Cell(rows[n].cols, DefectRate).r);
      }
    }
  }

  lemma QualitySeenIsDegrading(rows: seq<Row>, ent: Id, item: Id, supplier: Id, c: Candidate)
    ensures QualitySeen(QualitySamples(rows, ent), (item, supplier), c) <==>
              c.kind.QualityDegradation? && c.item == Some(item) && c.supplier == Some(supplier)
              && Degrading(rows, ent, item, supplier, c.severity)
  {
    var samples := ValuesOf(QualitySamples(rows, ent), (item, supplier));
    DefectsAddUp(rows, ent, item, supplier);
    QualityFires(item, supplier, samples);
    if QualityRule(item, supplier, samples).Some? {
      QualityLadder(item, supplier, samples);
    }
  }

  // ---- in which order they are applied -------------------------------------------------------------------

  /** Risks of aggregates come first, then late suppliers, then bad deliveries. */
  function Stage(kind: RiskType): nat {
    match kind
    case SystematicSupplierDelay => 1
    case QualityDegradation => 2
    case _ => 0
  }

  lemma {:induction false} FlatMapStage<T(!new)>(f: T -> seq<Candidate>, items: seq<T>, stage: nat)
    requires forall t, c :: c in f(t) ==> Stage(c.kind) == stage
    ensures forall c :: c in FlatMap(f, items) ==> Stage(c.kind) == stage
  {
    if items != [] {
      FlatMapStage(f, items[..|items| - 1], stage);
    }
  }

  lemma AggregateStage(rows: seq<Row>, ent: Id, now: int, a: Aggregate, c: Candidate)
    ensures c in AggregateRules(rows, ent, now)(a) ==> Stage(c.kind) == 0
  {
    if c in AggregateRules(rows, ent, now)(a) {
      SeenIsAtRisk(rows, ent, now, a, c);
    }
  }

  ghost predicate AllAt(cs: seq<Candidate>, stage: nat) {
    forall k :: 0 <= k < |cs| ==> Stage(cs[k].kind) == stage
  }

  lemma StagesFollow(first: seq<Candidate>, second: seq<Candidate>, third: seq<Candidate>, i: nat, j: nat)
    requires AllAt(first, 0) && AllAt(second, 1) && AllAt(third, 2) && i < j < |first + second + third|
    ensures Stage((first + second + third)[i].kind) <= Stage((first + second + third)[j].kind)
  {
  }

  lemma FlatMapAllAt<T(!new)>(f: T -> seq<Candidate>, items: seq<T>, stage: nat)
    requires forall t, c :: c in f(t) ==> Stage(c.kind) == stage
    ensures AllAt(FlatMap(f, items), stage)
  {
    FlatMapStage(f, items, stage);
    var cs := FlatMap(f, items);
    assert forall k :: 0 <= k < |cs| ==> cs[k] in cs;
  }

  lemma CandidatesInOrder(rows: seq<Row>, aggs: seq<Aggregate>, ent: Id, now: int, i: nat, j: nat)
    requires i < j < |Candidates(rows, aggs, ent, now)|
    ensures var cs := Candidates(rows, aggs, ent, now);
            Stage(cs[i].kind) <= Stage(cs[j].kind)
  {
    var delays, quality := DelaySamples(rows, ent), QualitySamples(rows, ent);
    forall a, c
      ensures c in AggregateRules(rows, ent, now)(a) ==> Stage(c.kind) == 0
    {
      AggregateStage(rows, ent, now, a, c);
    }
    FlatMapAllAt(AggregateRules(rows, ent, now), aggs, 0);
    FlatMapAllAt(DelayRules(delays), KeysOf(delays), 1);
    FlatMapAllAt(QualityRules(quality), KeysOf(quality), 2);
    StagesFollow(FlatMap(AggregateRules(rows, ent, now), aggs), FlatMap(DelayRules(delays), KeysOf(delays)),
                 FlatMap(QualityRules(quality), KeysOf(quality)), i, j);
  }

  // ---- what detection reports --------------------------------------------------------------------------

  /** The changes that bear on a risk. */
  predicate BearsOn(kind: RiskType, s: SignalType) {
    match kind
    case LikelyShortage => s.StockChange?
    case InsufficientUntilNextDelivery => s.StockChange?
    case ProductionStopRisk => s.StockChange? || s.DemandChange?
    case PriceAnomaly => s.PriceChange?
    case QualityDegradation => s.QualityIssue?
    case SystematicSupplierDelay => false
  }

  /** The signal is of the finding's enterprise, bears on it, and is about its item and supplier. */
  predicate Evident(s: Signal, f: Finding) {
    && s.ent == f.ent && BearsOn(f.kind, s.kind)
    && (f.item.Some? ==> s.item == f.item)
    && (f.supplier.Some? ==> s.supplier == f.supplier)
  }

  /** Exactly the signals that are evidence of finding `i` are linked to it. */
  ghost predicate LinkedExactly(db: Db, i: Id)
    requires i < |db.findings|
  {
    forall k: Id :: Link(i, k) in db.links <==> k < |db.signals| && Evident(db.signals[k], db.findings[i])
  }

  ghost predicate ExplanationAwaits(jobs: seq<Job>, i: Id) {
    exists j: Id :: j < |jobs| && jobs[j].task.GenerateExplanation? && jobs[j].task.finding == i
                    && (jobs[j].status.Pending? || jobs[j].status.Running?)
  }

  /** Finding `i` is an ongoing one of this risk, with all its evidence, and explained or waiting
      to be. */
  ghost predicate ReportedAs(db: Db, ent: Id, kind: RiskType, item: Option<Id>, supplier: Option<Id>, i: Id) {
    && i < |db.findings|
    && var f := db.findings[i];
       && f.ent == ent && f.kind == kind && f.item == item && f.supplier == supplier
       && (f.status.Open? || f.status.Recommended? || f.status.Actioned?)
       && LinkedExactly(db, i)
       && (f.aiStatus.AiReady? || ExplanationAwaits(db.jobs, i))
  }

  ghost predicate Reported(db: Db, ent: Id, kind: RiskType, item: Option<Id>, supplier: Option<Id>) {
    exists i: Id :: ReportedAs(db, ent, kind, item, supplier, i)
  }

  lemma SupportIsEvident(s: Signal, f: Finding, ent: Id, c: Candidate)
    requires SameRisk(f, ent, c)
    ensures Supports(s, ent, c) <==> Evident(s, f)
  {
  }

  lemma HandledIsReported(db: Db, ent: Id, c: Candidate, i: Id)
    requires BookInv(BookOf(db), db.signals) && Handled(BookOf(db), db.signals, ent, c, i)
    ensures ReportedAs(db, ent, c.kind, c.item, c.supplier, i)
  {
    var f := db.findings[i];
    forall k: Id
      ensures Link(i, k) in db.links <==> k < |db.signals| && Evident(db.signals[k], f)
    {
      if k < |db.signals| {
        SupportIsEvident(db.signals[k], f, ent, c);
        SupportIsEvident(db.signals[k], f, f.ent, ConditionOf(f));
      }
    }
    if !f.aiStatus.AiReady? {
      var j: Id :| j < |db.jobs| && Explains(db.jobs[j], i) && Active(db.jobs[j]);
    }
  }

  lemma SeenIsReported(db: Db, ent: Id, now: int, c: Candidate)
    requires BookInv(BookOf(db), db.signals) && Seen(db.rows, db.aggregates, ent, now, c)
    ensures Reported(DetectedDb(db, ent, now), ent, c.kind, c.item, c.supplier)
  {
    var cs := Candidates(db.rows, db.aggregates, ent, now);
    AllHandled(BookOf(db), db.signals, ent, now, cs);
    CandidatesAreSeen(db.rows, db.aggregates, ent, now, c);
    var k :| 0 <= k < |cs| && cs[k] == c;
    var after, i := DetectedDb(db, ent, now), DetectedIn(db, ent, now).found[k];
    assert BookOf(after) == DetectedIn(db, ent, now).book;
    HandledIsReported(after, ent, c, i);
  }

  lemma AtRiskIsReported(db: Db, ent: Id, now: int, a: Aggregate, kind: RiskType)
    requires BookInv(BookOf(db), db.signals)
    requires a in db.aggregates && a.ent == ent && SurelyAtRisk(db.rows, a, now, kind)
    ensures Reported(DetectedDb(db, ent, now), ent, kind, Some(a.item), None)
  {
    var c := AtRiskIsSeen(db.rows, ent, now, a, kind);
    SeenIsReported(db, ent, now, c);
  }

  lemma LateIsReported(db: Db, ent: Id, now: int, supplier: Id, severity: Severity)
    requires BookInv(BookOf(db), db.signals) && LateSupplier(db.rows, ent, supplier, severity)
    ensures Reported(DetectedDb(db, ent, now), ent, SystematicSupplierDelay, None, Some(supplier))
  {
    var c := Candidate(SystematicSupplierDelay, None, Some(supplier), severity);
    DelaySeenIsLate(db.rows, ent, supplier, c);
    SeenIsReported(db, ent, now, c);
  }

  lemma DegradingIsReported(db: Db, ent: Id, now: int, item: Id, supplier: Id, severity: Severity)
    requires BookInv(BookOf(db), db.signals) && Degrading(db.rows, ent, item, supplier, severity)
    ensures Reported(DetectedDb(db, ent, now), ent, QualityDegradation, Some(item), Some(supplier))
  {
    var c := Candidate(QualityDegradation, Some(item), Some(supplier), severity);
    QualitySeenIsDegrading(db.rows, ent, item, supplier, c);
    SeenIsReported(db, ent, now, c);
  }

  /** The finding is new, and the risk it states is there with its severity. */
  ghost predicate Justified(db: Db, ent: Id, now: int, f: Finding) {
    && f.ent == ent && f.status.Open? && f.aiStatus.AiPending?
    && f.detectedAt == now && f.resolvedAt.None? && f.dismissal.None?
    && match f.kind
       case SystematicSupplierDelay =>
         f.item.None? && f.supplier.Some? && LateSupplier(db.rows, ent, f.supplier.value, f.severity)
       case QualityDegradation =>
         f.item.Some? && f.supplier.Some? && Degrading(db.rows, ent, f.item.value, f.supplier.value, f.severity)
       case _ =>
         f.supplier.None? && exists a: Aggregate ::
           a in db.aggregates && a.ent == ent && f.item == Some(a.item) && AtRisk(db.rows, a, now, f.kind, f.severity)
  }

  lemma SeenIsJustified(db: Db, ent: Id, now: int, c: Candidate)
    requires Seen(db.rows, db.aggregates, ent, now, c)
    ensures Justified(db, ent, now, NewFinding(ent, c, now))
  {
    if a :| a in db.aggregates && AggregateSeen(db.rows, ent, now, a, c) {
      SeenIsAtRisk(db.rows, ent, now, a, c);
    } else if s: Id :| DelaySeen(DelaySamples(db.rows, ent), s, c) {
      DelaySeenIsLate(db.rows, ent, s, c);
    } else {
      var pair: (Id, Id) :| QualitySeen(QualitySamples(db.rows, ent), pair, c);
      QualitySeenIsDegrading(db.rows, ent, pair.0, pair.1, c);
    }
  }

  lemma MadeIsJustified(db: Db, ent: Id, now: int, f: Finding)
    requires MadeFrom(db.rows, db.aggregates, ent, now, f)
    ensures Justified(db, ent, now, f)
  {
    var c :| Seen(db.rows, db.aggregates, ent, now, c) && f == NewFinding(ent, c, now);
    SeenIsJustified(db, ent, now, c);
  }

  /** After a detection every risk that the rows and aggregates of the enterprise show is an ongoing
      finding with exactly its evidence, explained or waiting to be; every finding it added states
      a risk that is there; and the findings there were before are as they were. */
  lemma DetectionMeans(db: Db, ent: Id, now: int)
    requires BookInv(BookOf(db), db.signals)
    ensures var after := DetectedDb(db, ent, now);
            && db.findings <= after.findings
            && (forall a: Aggregate, kind: RiskType ::
                  a in db.aggregates && a.ent == ent && SurelyAtRisk(db.rows, a, now, kind) ==>
                    Reported(after, ent, kind, Some(a.item), None))
            && (forall supplier: Id, severity: Severity :: LateSupplier(db.rows, ent, supplier, severity) ==>
                  Reported(after, ent, SystematicSupplierDelay, None, Some(supplier)))
            && (forall item: Id, supplier: Id, severity: Severity ::
                  Degrading(db.rows, ent, item, supplier, severity) ==>
                    Reported(after, ent, QualityDegradation, Some(item), Some(supplier)))
            && (forall i: Id :: |db.findings| <= i < |after.findings| ==> Justified(db, ent, now, after.findings[i]))
  {
    var after := DetectedDb(db, ent, now);
    DetectionExact(db, ent, now);
    forall a: Aggregate, kind: RiskType | a in db.aggregates && a.ent == ent && SurelyAtRisk(db.rows, a, now, kind)
      ensures Reported(after, ent, kind, Some(a.item), None)
    {
      AtRiskIsReported(db, ent, now, a, kind);
    }
    forall supplier: Id, severity: Severity | LateSupplier(db.rows, ent, supplier, severity)
      ensures Reported(after, ent, SystematicSupplierDelay, None, Some(supplier))
    {
      LateIsReported(db, ent, now, supplier, severity);
    }
    forall item: Id, supplier: Id, severity: Severity | Degrading(db.rows, ent, item, supplier, severity)
      ensures Reported(after, ent, QualityDegradation, Some(item), Some(supplier))
    {
      DegradingIsReported(db, ent, now, item, supplier, severity);
    }
    forall i: Id | |db.findings| <= i < |after.findings|
      ensures Justified(db, ent, now, after.findings[i])
    {
      MadeIsJustified(db, ent, now, after.findings[i]);
    }
  }

  // ---- shortages are real ------------------------------------------------------------------------------

  /** The exact stock does not last for the lead time at the exact daily consumption, by more than
      `margin` days, by some row that is used for each. */
  ghost predicate ShortBy(rows: seq<Row>, item: Id, margin: real) {
    exists daily: real, lead: real ::
      UsesDaily(rows, item, daily) && UsesLead(rows, item, lead) && Lacks(ExactStock(rows, item), daily, lead, margin)
  }

  /** The same by every row that may be used. */
  ghost predicate SurelyShortBy(rows: seq<Row>, item: Id, margin: real) {
    && Consumed(rows, item) && HasLead(rows, item)
    && forall daily: real, lead: real :: UsesDaily(rows, item, daily) && UsesLead(rows, item, lead) ==>
         Lacks(ExactStock(rows, item), daily, lead, margin)
  }

  /** The stored aggregate is what a recomputation would write. */
  ghost predicate IsCurrent(rows: seq<Row>, a: Aggregate) {
    FiguresOf(rows, a.item) == Some(a.figures)
  }

  lemma LeadTimeScaled(rows: seq<Row>, item: Id)
    requires Persisted(rows) && LeadTimeDays(rows, item).Some?
    ensures Scaled(LeadTimeDays(rows, item).value)
  {
    var q := Query(rows, LeadTime, item);
    var i := Latest(q, AsOf, None).value;
    assert q[i] in q;
    var k :| 0 <= k < |rows| && rows[k] == q[i];
    assert Round4(0.0) == 0.0;
    if Cell(rows[k].cols, Days).Num? {
      assert Stored(rows[k].cols[Days]) == rows[k].cols[Days];
    }
  }

  lemma CoverIsStored(rows: seq<Row>, a: Aggregate)
    requires IsCurrent(rows, a)
    ensures var daily := AvgDailyConsumption(Query(rows, Consumption, a.item));
            a.figures.cover == Keep4(Cover(ExactStock(rows, a.item), daily))
  {
    TotalIsExactStock(rows, a.item);
  }

  /** A shortage candidate of an up-to-date aggregate is a shortage of the exact quantities; one by
      more than 0.00005 days of consumption always is a candidate. */
  lemma ShortageIsReal(rows: seq<Row>, a: Aggregate)
    requires Persisted(rows) && IsCurrent(rows, a)
    ensures ShortageCandidate(rows, a).Some? ==> ShortBy(rows, a.item, 0.0)
    ensures SurelyShortBy(rows, a.item, 0.00005) ==> ShortageCandidate(rows, a).Some?
  {
    var daily, lead := AvgDailyConsumption(Query(rows, Consumption, a.item)), LeadTimeDays(rows, a.item);
    CoverIsStored(rows, a);
    DailyIsAReading(rows, a.item);
    LeadIsAReading(rows, a.item);
    if daily.Some? && lead.Some? {
      LeadTimeScaled(rows, a.item);
      NoFalseShortage(a.item, ExactStock(rows, a.item), daily.value, lead.value, a.figures);
    }
  }

  lemma ShortageIsListed(db: Db, ent: Id, now: int, a: Aggregate)
    requires BookInv(BookOf(db), db.signals) && Persisted(db.rows)
    requires a in db.aggregates && a.ent == ent && IsCurrent(db.rows, a) && SurelyShortBy(db.rows, a.item, 0.00005)
    ensures Reported(DetectedDb(db, ent, now), ent, LikelyShortage, Some(a.item), None)
  {
    ShortageIsReal(db.rows, a);
    var c := ShortageCandidate(db.rows, a).value;
    ShortageMeans(db.rows, a, c);
    assert c in Optional(ShortageCandidate(db.rows, a));
    assert AggregateSeen(db.rows, ent, now, a, c);
    SeenIsReported(db, ent, now, c);
  }

  lemma OnlyShortageRule(rows: seq<Row>, a: Aggregate, now: int, c: Candidate)
    requires c in AggregateCandidates(rows, a, now) && c.kind.LikelyShortage?
    ensures ShortageCandidate(rows, a) == Some(c) && c.item == Some(a.item)
  {
  }

  lemma ListedShortageIsReal(db: Db, ent: Id, now: int, c: Candidate)
    requires Persisted(db.rows) && c.kind.LikelyShortage? && Seen(db.rows, db.aggregates, ent, now, c)
    requires forall a :: a in db.aggregates && a.ent == ent ==> IsCurrent(db.rows, a)
    ensures c.item.Some? && ShortBy(db.rows, c.item.value, 0.0)
  {
    var a :| a in db.aggregates && AggregateSeen(db.rows, ent, now, a, c);
    OnlyShortageRule(db.rows, a, now, c);
    ShortageIsReal(db.rows, a);
  }

  /** From the source rows to the findings: after a detection on up-to-date aggregates of the
      enterprise, every shortage by more than 0.00005 days is reported, and every shortage it added
      is one of the exact quantities. */
  lemma ShortagesEndToEnd(db: Db, ent: Id, now: int)
    requires BookInv(BookOf(db), db.signals) && Persisted(db.rows)
    requires forall a :: a in db.aggregates && a.ent == ent ==> IsCurrent(db.rows, a)
    ensures var after := DetectedDb(db, ent, now);
            && (forall a :: a in db.aggregates && a.ent == ent && SurelyShortBy(db.rows, a.item, 0.00005) ==>
                  Reported(after, ent, LikelyShortage, Some(a.item), None))
            && (forall i: Id :: |db.findings| <= i < |after.findings| && after.findings[i].kind.LikelyShortage? ==>
                  after.findings[i].item.Some? && ShortBy(db.rows, after.findings[i].item.value, 0.0))
  {
    var after := DetectedDb(db, ent, now);
    DetectionExact(db, ent, now);
    forall a | a in db.aggregates && a.ent == ent && SurelyShortBy(db.rows, a.item, 0.00005)
      ensures Reported(after, ent, LikelyShortage, Some(a.item), None)
    {
      ShortageIsListed(db, ent, now, a);
    }
    forall i: Id | |db.findings| <= i < |after.findings| && after.findings[i].kind.LikelyShortage?
      ensures after.findings[i].item.Some? && ShortBy(db.rows, after.findings[i].item.value, 0.0)
    {
      assert MadeFrom(db.rows, db.aggregates, ent, now, after.findings[i]);
      var c :| Seen(db.rows, db.aggregates, ent, now, c) && after.findings[i] == NewFinding(ent, c, now);
      ListedShortageIsReal(db, ent, now, c);
    }
  }
}
