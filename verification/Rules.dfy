/** The deterministic risk rules (src/app/analysis/rules.py:44-259). */
module Rules {
  import opened Basics
  import opened Tables
  import opened Aggregates

  const DELAY_THRESHOLD_DAYS := 3.0
  const DELAY_MIN_SAMPLES := 3
  const PRICE_THRESHOLD := 0.10
  const DEFECT_THRESHOLD := 0.05

  datatype Candidate = Candidate(kind: RiskType, item: Option<Id>, supplier: Option<Id>, severity: Severity)

  function SeverityFromRatio(ratio: real, high: real, med: real): Severity {
    if ratio >= high then High else if ratio >= med then Med else Low
  }

  /** Severity of a cover that ends before `limit` days. */
  function ShortfallSeverity(cover: real, limit: real): Severity
    requires limit > 0.0
  {
    SeverityFromRatio(1.0 - cover / limit, 0.75, 0.25)
  }

  predicate Short(cover: Option<real>, limit: real) {
    cover.Some? && limit > 0.0 && cover.value < limit
  }

  function Shortfall(kind: RiskType, item: Id, cover: Option<real>, limit: real): Option<Candidate> {
    if Short(cover, limit)
    then Some(Candidate(kind, Some(item), None, ShortfallSeverity(cover.value, limit)))
    else None
  }

  function LikelyShortageRule(item: Id, f: Figures, leadTimeDays: real): Option<Candidate> {
    Shortfall(LikelyShortage, item, f.cover, leadTimeDays)
  }

  function NextDeliveryRule(item: Id, f: Figures, now: int): Option<Candidate> {
    if f.nextDelivery.None? then None
    else Shortfall(InsufficientUntilNextDelivery, item, f.cover, WholeDays(f.nextDelivery.value - now) as real)
  }

  /** The smallest number of days until a demand, over the demands given by need-by day. */
  function SoonestNeed(needs: seq<int>, today: int): (d: Option<int>)
    ensures d.None? <==> needs == []
    ensures d.Some? ==> (exists i :: 0 <= i < |needs| && d.value == needs[i] - today)
    ensures d.Some? ==> forall i :: 0 <= i < |needs| ==> d.value <= needs[i] - today
  {
    if needs == [] then None
    else
      var n := |needs| - 1;
      var rest := SoonestNeed(needs[..n], today);
      assert forall i :: 0 <= i < n ==> needs[i] == needs[..n][i];
      if rest.None? || needs[n] - today < rest.value then Some(needs[n] - today) else rest
  }

  function ProductionStopRule(item: Id, f: Figures, needs: seq<int>, now: int): Option<Candidate> {
    var soonest := SoonestNeed(needs, WholeDays(now));
    if soonest.None? then None else Shortfall(ProductionStopRisk, item, f.cover, soonest.value as real)
  }

  method EvaluateProductionStop(item: Id, f: Figures, needs: seq<int>, now: int) returns (r: Option<Candidate>)
    ensures r == ProductionStopRule(item, f, needs, now)
  {
    if needs == [] || f.cover.None? {
      return None;
    }
    var today := WholeDays(now);
    var soonest: Option<int> := None;
    for i := 0 to |needs|
      invariant soonest == SoonestNeed(needs[..i], today)
    {
      assert needs[..i + 1][..i] == needs[..i];
      var days := needs[i] - today;
      if soonest.None? || days < soonest.value {
        soonest := Some(days);
      }
    }
    assert needs[..|needs|] == needs;
    if soonest.value <= 0 || f.cover.value >= soonest.value as real {
      return None;
    }
    r := Some(Candidate(ProductionStopRisk, Some(item), None, ShortfallSeverity(f.cover.value, soonest.value as real)));
  }

  function SupplierDelayRule(supplier: Id, samples: seq<int>): Option<Candidate> {
    if |samples| < DELAY_MIN_SAMPLES || Mean(samples) <= DELAY_THRESHOLD_DAYS then None
    else Some(Candidate(SystematicSupplierDelay, None, Some(supplier),
                        SeverityFromRatio(Mean(samples) / DELAY_THRESHOLD_DAYS, 2.0, 1.5)))
  }

  lemma MeanAbove(samples: seq<int>, limit: int)
    requires samples != []
    ensures Mean(samples) > limit as real <==> Sum(samples) > limit * |samples|
  {
    var mean, n := Mean(samples), |samples| as real;
    MeanTimesCount(samples);
    MultiplyCompare(limit as real, mean, n);
    assert limit as real * n == (limit * |samples|) as real;
  }

  lemma MeanTimesCount(samples: seq<int>)
    requires samples != []
    ensures Mean(samples) * |samples| as real == Sum(samples) as real
  {
  }

  /** In whole numbers: at least three samples, more than three days late on average. */
  lemma SupplierDelayFires(supplier: Id, samples: seq<int>)
    ensures SupplierDelayRule(supplier, samples).Some? <==> |samples| >= 3 && Sum(samples) > 3 * |samples|
  {
    if samples != [] {
      MeanAbove(samples, 3);
    }
  }

  function PriceAnomalyRule(item: Id, f: Figures): Option<Candidate> {
    if f.trend.None? then None
    else
      var magnitude := if f.trend.value < 0.0 then -f.trend.value else f.trend.value;
      if magnitude < PRICE_THRESHOLD then None
      else Some(Candidate(PriceAnomaly, Some(item), None, SeverityFromRatio(magnitude / PRICE_THRESHOLD, 2.0, 1.5)))
  }

  function RealSum(xs: seq<real>): real {
    if xs == [] then 0.0 else RealSum(xs[..|xs| - 1]) + xs[|xs| - 1]
  }

  function QualityRule(item: Id, supplier: Id, samples: seq<real>): Option<Candidate> {
    if samples == [] then None
    else
      var rate := RealSum(samples) / |samples| as real;
      if rate <= DEFECT_THRESHOLD then None
      else Some(Candidate(QualityDegradation, Some(item), Some(supplier),
                          SeverityFromRatio(rate / DEFECT_THRESHOLD, 2.0, 1.5)))
  }

  // ---- severity follows the shortfall --------------------------------------------------------------

  function SeverityRank(s: Severity): nat {
    match s case Low => 0 case Med => 1 case High => 2
  }

  /** Less cover never silences a shortfall rule and never lowers its severity. */
  lemma LessCoverNotMilder(kind: RiskType, item: Id, cover: real, less: real, limit: real)
    requires less <= cover
    ensures Shortfall(kind, item, Some(cover), limit).Some? ==> Shortfall(kind, item, Some(less), limit).Some?
    ensures Shortfall(kind, item, Some(cover), limit).Some? ==>
              SeverityRank(Shortfall(kind, item, Some(less), limit).value.severity)
              >= SeverityRank(Shortfall(kind, item, Some(cover), limit).value.severity)
  {
    if Short(Some(cover), limit) {
      DivideMonotone(less, cover, limit);
    }
  }

  lemma MultiplyCompare(a: real, b: real, d: real)
    requires d > 0.0
    ensures a < b <==> a * d < b * d
  {
  }

  lemma DivideCompare(a: real, b: real, d: real)
    requires d > 0.0
    ensures a / d < b <==> a < d * b
    ensures b < a / d <==> d * b < a
  {
    var x := a / d;
    assert x * d == a;
    MultiplyCompare(x, b, d);
    MultiplyCompare(b, x, d);
  }

  lemma DivideMonotone(a: real, b: real, d: real)
    requires a <= b && d > 0.0
    ensures a / d <= b / d
  {
    var y := b / d;
    assert y * d == b;
    DivideCompare(a, y, d);
  }

  // ---- when the rules fire, without division ---------------------------------------------------------

  /** A shortfall rule fires below the limit; it is high when no more than a quarter of the
      limit is covered, and at least medium when no more than three quarters are. */
  lemma ShortfallLadder(kind: RiskType, item: Id, cover: real, limit: real)
    requires limit > 0.0
    ensures var c := Shortfall(kind, item, Some(cover), limit);
            && (c.Some? <==> cover < limit)
            && (c.Some? ==> (c.value.severity.High? <==> 4.0 * cover <= limit))
            && (c.Some? ==> (c.value.severity.Low? <==> 4.0 * cover > 3.0 * limit))
  {
    DivideCompare(cover, 0.25, limit);
    DivideCompare(cover, 0.75, limit);
  }

  /** A production stop is seen exactly when there are demands, all of them ahead, and none of
      them within the days covered. */
  lemma ProductionStopFires(item: Id, f: Figures, needs: seq<int>, now: int)
    ensures ProductionStopRule(item, f, needs, now).Some? <==>
              && f.cover.Some? && needs != []
              && forall i :: 0 <= i < |needs| ==>
                   needs[i] > WholeDays(now) && f.cover.value < (needs[i] - WholeDays(now)) as real
  {
    var soonest := SoonestNeed(needs, WholeDays(now));
    if soonest.Some? {
      var i :| 0 <= i < |needs| && soonest.value == needs[i] - WholeDays(now);
      assert forall k :: 0 <= k < |needs| ==> soonest.value as real <= (needs[k] - WholeDays(now)) as real;
    }
  }

  /** A delay is high from six days on average and at least medium from four and a half. */
  lemma SupplierDelayLadder(supplier: Id, samples: seq<int>)
    requires SupplierDelayRule(supplier, samples).Some?
    ensures var severity := SupplierDelayRule(supplier, samples).value.severity;
            && (severity.High? <==> Sum(samples) >= 6 * |samples|)
            && (severity.Low? <==> 2 * Sum(samples) < 9 * |samples|)
  {
    var mean := Mean(samples);
    assert mean / DELAY_THRESHOLD_DAYS >= 2.0 <==> mean >= 6.0;
    assert mean / DELAY_THRESHOLD_DAYS >= 1.5 <==> mean >= 4.5;
    MeanBelow(samples, 12);
    MeanBelow(samples, 9);
  }

  lemma MeanBelow(samples: seq<int>, halves: int)
    requires samples != []
    ensures Mean(samples) < halves as real / 2.0 <==> 2 * Sum(samples) < halves * |samples|
  {
    var n := |samples| as real;
    MeanTimesCount(samples);
    MultiplyCompare(Mean(samples), halves as real / 2.0, n);
    HalfTimes(halves, |samples|);
  }

  lemma HalfTimes(halves: int, count: nat)
    ensures 2.0 * (halves as real / 2.0 * count as real) == (halves * count) as real
  {
  }

  /** Quality degrades when the defect rates of an item's supplier add up to more than five
      percent each. */
  lemma QualityFires(item: Id, supplier: Id, samples: seq<real>)
    ensures QualityRule(item, supplier, samples).Some? <==>
              samples != [] && RealSum(samples) > |samples| as real * 0.05
  {
    if samples != [] {
      DivideCompare(RealSum(samples), 0.05, |samples| as real);
    }
  }

  /** A price anomaly is a trend of ten percent or more, up or down: high from twenty percent and
      at least medium from fifteen. */
  lemma PriceAnomalyFires(item: Id, f: Figures)
    ensures var c := PriceAnomalyRule(item, f);
            && (c.Some? <==> f.trend.Some? && (f.trend.value >= 0.10 || f.trend.value <= -0.10))
            && (c.Some? ==> (c.value.severity.High? <==> f.trend.value >= 0.20 || f.trend.value <= -0.20))
            && (c.Some? ==> (c.value.severity.Low? <==> -0.15 < f.trend.value < 0.15))
  {
  }

  /** A degradation is high from ten percent on average and at least medium from seven and a half. */
  lemma QualityLadder(item: Id, supplier: Id, samples: seq<real>)
    requires QualityRule(item, supplier, samples).Some?
    ensures var severity := QualityRule(item, supplier, samples).value.severity;
            && (severity.High? <==> RealSum(samples) >= |samples| as real * 0.10)
            && (severity.Low? <==> RealSum(samples) < |samples| as real * 0.075)
  {
    var rate := RealSum(samples) / |samples| as real;
    DivideCompare(RealSum(samples), 0.10, |samples| as real);
    DivideCompare(RealSum(samples), 0.075, |samples| as real);
    assert rate / DEFECT_THRESHOLD >= 2.0 <==> rate >= 0.10;
    assert rate / DEFECT_THRESHOLD >= 1.5 <==> rate >= 0.075;
  }

  // ---- rounding and shortages ----------------------------------------------------------------------

  /** A shortage rule on the stored, rounded cover fires exactly when the exact cover is more
      than half a unit of the last stored decimal below the lead time. */
  lemma StoredCoverDecides(item: Id, cover: real, lead: real)
    requires Scaled(lead) && lead > 0.0
    ensures Shortfall(LikelyShortage, item, Some(Round4(cover)), lead).Some? <==> cover < lead - 0.00005
  {
    var n := RoundUnits(lead);
    assert lead == n as real / 10000.0;
    if cover >= 0.0 {
      assert Round4(cover) < lead <==> RoundUnits(cover) < n;
      assert RoundUnits(cover) < n <==> cover * 10000.0 + 0.5 < n as real;
    } else {
      assert n >= 1;
    }
  }

  /** The exact stock does not last for the lead time, less `margin` days, at the exact daily
      consumption. */
  predicate Lacks(stock: real, daily: real, lead: real, margin: real) {
    daily > 0.0 && lead > 0.0 && stock < daily * (lead - margin)
  }

  /** A shortage found on the stored aggregate is a shortage of the exact quantities; a true
      one is missed only within 0.00005 days of the limit. */
  lemma NoFalseShortage(item: Id, stock: real, daily: real, lead: real, f: Figures)
    requires Scaled(lead) && f.cover == Keep4(Cover(stock, Some(daily)))
    ensures LikelyShortageRule(item, f, lead).Some? ==> Lacks(stock, daily, lead, 0.0)
    ensures Lacks(stock, daily, lead, 0.00005) ==> LikelyShortageRule(item, f, lead).Some?
  {
    if daily > 0.0 && lead > 0.0 {
      StoredCoverDecides(item, stock / daily, lead);
      DivideCompare(stock, lead, daily);
      DivideCompare(stock, lead - 0.00005, daily);
      assert lead - 0.0 == lead;
    }
  }

  /** With less stock, a shortage on the stored cover stays one and is at least as severe. */
  lemma LessStockNotMilder(item: Id, stock: real, less: real, daily: real, lead: real, f: Figures, g: Figures)
    requires less <= stock && daily > 0.0
    requires f.cover == Keep4(Cover(stock, Some(daily))) && g.cover == Keep4(Cover(less, Some(daily)))
    requires LikelyShortageRule(item, f, lead).Some?
    ensures LikelyShortageRule(item, g, lead).Some?
    ensures SeverityRank(LikelyShortageRule(item, g, lead).value.severity)
            >= SeverityRank(LikelyShortageRule(item, f, lead).value.severity)
  {
    DivideMonotone(less, stock, daily);
    Round4Monotone(less / daily, stock / daily);
    LessCoverNotMilder(LikelyShortage, item, f.cover.value, g.cover.value, lead);
  }
}
