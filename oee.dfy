/**
 * The OEE (overall equipment effectiveness) page: the loss analysis, the OEE status and
 * rating labels, and the metrics derived from one backend record.
 */
module Oee {
  import opened Common

  datatype LossKind =
    | EquipmentFailure | SetupAdjustments
    | ReducedSpeed | IdlingMinorStops
    | ProcessDefects | ReducedYield

  datatype Metric = Availability | Performance | Quality

  /** A loss card: its kind and the displayed range `low-high%`. */
  datatype Loss = Loss(kind: LossKind, low: int, high: int)

  /** Which metric a loss kind explains. */
  function MetricOf(k: LossKind): Metric {
    match k
    case EquipmentFailure | SetupAdjustments => Availability
    case ReducedSpeed | IdlingMinorStops => Performance
    case ProcessDefects | ReducedYield => Quality
  }

  function Order(m: Metric): nat {
    match m
    case Availability => 0
    case Performance => 1
    case Quality => 2
  }

  /** The displayed range of a loss: the loss scaled by two factors, rounded. */
  function Range(kind: LossKind, loss: real, lowFactor: real, highFactor: real): (r: Loss)
    requires 0.0 <= loss && 0.0 <= lowFactor <= highFactor
    ensures r.kind == kind && r.low == Round(loss * lowFactor) && r.high == Round(loss * highFactor)
    ensures 0 <= r.low <= r.high
  {
    RoundMonotone(loss * lowFactor, loss * highFactor);
    RoundMonotone(0.0, loss * lowFactor);
    Loss(kind, Round(loss * lowFactor), Round(loss * highFactor))
  }

  predicate Has(losses: seq<Loss>, k: LossKind) {
    exists i :: 0 <= i < |losses| && losses[i].kind == k
  }

  predicate Explains(losses: seq<Loss>, m: Metric) {
    exists i :: 0 <= i < |losses| && MetricOf(losses[i].kind) == m
  }

  /** The availability card: equipment failure above a 10-point loss, else setup and adjustments. */
  function AvailabilityCards(availability: real): (r: seq<Loss>)
    ensures |r| == if availability < 85.0 then 1 else 0
    ensures forall i :: 0 <= i < |r| ==>
      r[i] == Loss(EquipmentFailure, Round((100.0 - availability) * 0.6), Round((100.0 - availability) * 0.8))
  {
    if availability < 85.0 then
      var lossPercent := 100.0 - availability;
      if lossPercent > 10.0 then [Range(EquipmentFailure, lossPercent, 0.6, 0.8)]
      else [Loss(SetupAdjustments, Round(lossPercent * 0.7), Round(lossPercent * 0.9))]
    else []
  }

  /** The performance card: reduced speed above a 15-point loss, else idling and minor stops. */
  function PerformanceCards(performance: real): (r: seq<Loss>)
    ensures |r| == if performance < 85.0 then 1 else 0
    ensures forall i :: 0 <= i < |r| ==>
      r[i] == Loss(ReducedSpeed, Round((100.0 - performance) * 0.5), Round((100.0 - performance) * 0.7))
  {
    if performance < 85.0 then
      var lossPercent := 100.0 - performance;
      if lossPercent > 15.0 then [Range(ReducedSpeed, lossPercent, 0.5, 0.7)]
      else [Loss(IdlingMinorStops, Round(lossPercent * 0.6), Round(lossPercent * 0.8))]
    else []
  }

  /** The quality card: process defects above an 8-point loss, else reduced yield. */
  function QualityCards(quality: real): (r: seq<Loss>)
    ensures |r| == if quality < 95.0 then 1 else 0
    ensures forall i :: 0 <= i < |r| ==> MetricOf(r[i].kind) == Quality && 0 <= r[i].low <= r[i].high
    ensures forall i :: 0 <= i < |r| ==> (r[i].kind == ProcessDefects <==> quality < 92.0)
    ensures forall i :: 0 <= i < |r| && r[i].kind == ProcessDefects ==>
      r[i].low == Round((100.0 - quality) * 0.7) && r[i].high == Round((100.0 - quality) * 0.9)
    ensures forall i :: 0 <= i < |r| && r[i].kind == ReducedYield ==>
      r[i].low == Round((100.0 - quality) * 0.5) && r[i].high == Round((100.0 - quality) * 0.7)
  {
    if quality < 95.0 then
      var lossPercent := 100.0 - quality;
      if lossPercent > 8.0 then [Range(ProcessDefects, lossPercent, 0.7, 0.9)]
      else [Range(ReducedYield, lossPercent, 0.5, 0.7)]
    else []
  }

  /**
   * `getMajorLosses`: the cards are pushed one metric at a time, availability, performance,
   * then quality.
   */
  method MajorLosses(availability: real, performance: real, quality: real) returns (losses: seq<Loss>)
    ensures losses == Cards(availability, performance, quality)
  {
    losses := [];
    if availability < 85.0 {
      var lossPercent := 100.0 - availability;
      if lossPercent > 10.0 {
        losses := losses + [Range(EquipmentFailure, lossPercent, 0.6, 0.8)];
      } else {
        losses := losses + [Loss(SetupAdjustments, Round(lossPercent * 0.7), Round(lossPercent * 0.9))];
      }
    }
    if performance < 85.0 {
      var lossPercent := 100.0 - performance;
      if lossPercent > 15.0 {
        losses := losses + [Range(ReducedSpeed, lossPercent, 0.5, 0.7)];
      } else {
        losses := losses + [Loss(IdlingMinorStops, Round(lossPercent * 0.6), Round(lossPercent * 0.8))];
      }
    }
    if quality < 95.0 {
      var lossPercent := 100.0 - quality;
      if lossPercent > 8.0 {
        losses := losses + [Range(ProcessDefects, lossPercent, 0.7, 0.9)];
      } else {
        losses := losses + [Range(ReducedYield, lossPercent, 0.5, 0.7)];
      }
    }
  }

  /** The cards of `getMajorLosses` for the three metrics. */
  function Cards(availability: real, performance: real, quality: real): (r: seq<Loss>)
    ensures |r| == (if availability < 85.0 then 1 else 0) + (if performance < 85.0 then 1 else 0)
                   + (if quality < 95.0 then 1 else 0)
  {
    AvailabilityCards(availability) + PerformanceCards(performance) + QualityCards(quality)
  }

  /** At most three cards, one for each metric below its target and none for the others. */
  lemma CardsPerMetric(availability: real, performance: real, quality: real)
    ensures var c := Cards(availability, performance, quality);
      && |c| <= 3
      && (Explains(c, Availability) <==> availability < 85.0)
      && (Explains(c, Performance) <==> performance < 85.0)
      && (Explains(c, Quality) <==> quality < 95.0)
  {
    var a, p, q := AvailabilityCards(availability), PerformanceCards(performance), QualityCards(quality);
    var c := a + p + q;
    assert forall i :: 0 <= i < |c| ==> c[i] == if i < |a| then a[i] else if i < |a| + |p| then p[i - |a|] else q[i - |a| - |p|];
    if availability < 85.0 { assert MetricOf(c[0].kind) == Availability; }
    if performance < 85.0 { assert MetricOf(c[|a|].kind) == Performance; }
    if quality < 95.0 { assert MetricOf(c[|a| + |p|].kind) == Quality; }
  }

  /** The cards come in the order availability, performance, quality. */
  lemma CardsOrdered(availability: real, performance: real, quality: real)
    ensures var c := Cards(availability, performance, quality);
      forall i, j :: 0 <= i < j < |c| ==> Order(MetricOf(c[i].kind)) < Order(MetricOf(c[j].kind))
  {
    var a, p, q := AvailabilityCards(availability), PerformanceCards(performance), QualityCards(quality);
    var c := a + p + q;
    assert forall i :: 0 <= i < |c| ==> c[i] == if i < |a| then a[i] else if i < |a| + |p| then p[i - |a|] else q[i - |a| - |p|];
  }

  /**
   * Setup and adjustments and idling and minor stops are never shown; the quality card is
   * process defects below 92 and reduced yield from 92 up to 95.
   */
  lemma CardKinds(availability: real, performance: real, quality: real)
    ensures var c := Cards(availability, performance, quality);
      && !Has(c, SetupAdjustments) && !Has(c, IdlingMinorStops)
      && (Has(c, ProcessDefects) <==> quality < 92.0)
      && (Has(c, ReducedYield) <==> 92.0 <= quality < 95.0)
      && forall i :: 0 <= i < |c| ==> 0 <= c[i].low <= c[i].high
  {
    var a, p, q := AvailabilityCards(availability), PerformanceCards(performance), QualityCards(quality);
    var c := a + p + q;
    assert forall i :: 0 <= i < |c| ==> c[i] == if i < |a| then a[i] else if i < |a| + |p| then p[i - |a|] else q[i - |a| - |p|];
    if quality < 95.0 {
      assert c[|a| + |p|] == q[0];
    }
    if availability < 85.0 {
      RoundMonotone((100.0 - availability) * 0.6, (100.0 - availability) * 0.8);
      RoundMonotone(0.0, (100.0 - availability) * 0.6);
    }
    if performance < 85.0 {
      RoundMonotone((100.0 - performance) * 0.5, (100.0 - performance) * 0.7);
      RoundMonotone(0.0, (100.0 - performance) * 0.5);
    }
  }

  datatype Status = WorldClass | Good | Fair | Poor

  function StatusRank(s: Status): nat {
    match s
    case Poor => 0
    case Fair => 1
    case Good => 2
    case WorldClass => 3
  }

  /** The OEE status badge: world class from 85, good from 70, fair from 60, else poor. */
  function OeeStatus(oee: real): (r: Status)
    ensures r == WorldClass <==> 85.0 <= oee
    ensures r == Good <==> 70.0 <= oee < 85.0
    ensures r == Fair <==> 60.0 <= oee < 70.0
    ensures r == Poor <==> oee < 60.0
  {
    if oee >= 85.0 then WorldClass
    else if oee >= 70.0 then Good
    else if oee >= 60.0 then Fair
    else Poor
  }

  /** A higher OEE never gets a lower status. */
  lemma StatusMonotone(x: real, y: real)
    requires x <= y
    ensures StatusRank(OeeStatus(x)) <= StatusRank(OeeStatus(y))
  {
  }

  datatype SummaryLabel = WorldClassLabel | GoodLabel | Acceptable | Critical

  /** The label of the executive summary's OEE card. */
  function Summary(oee: real): (r: SummaryLabel)
    ensures r == WorldClassLabel <==> 85.0 <= oee
    ensures r == Critical <==> oee < 60.0
  {
    if oee >= 85.0 then WorldClassLabel
    else if oee >= 70.0 then GoodLabel
    else if oee >= 60.0 then Acceptable
    else Critical
  }

  /** The summary label and the status badge split OEE at the same points. */
  lemma SummaryAgreesWithStatus(oee: real)
    ensures Summary(oee) == match OeeStatus(oee)
      case WorldClass => WorldClassLabel
      case Good => GoodLabel
      case Fair => Acceptable
      case Poor => Critical
  {
  }

  datatype Rating = Excellent | GoodRating | NeedsImprovement

  /** A summary rating: excellent from `excellentAt`, good from `goodAt`, else needs improvement. */
  function Rate(x: real, excellentAt: real, goodAt: real): (r: Rating)
    requires goodAt <= excellentAt
    ensures r == Excellent <==> excellentAt <= x
    ensures r == NeedsImprovement <==> x < goodAt
  {
    if x >= excellentAt then Excellent else if x >= goodAt then GoodRating else NeedsImprovement
  }

  function AvailabilityRating(a: real): (r: Rating)
    ensures r == Excellent <==> 85.0 <= a
    ensures r == GoodRating <==> 70.0 <= a < 85.0
    ensures r == NeedsImprovement <==> a < 70.0
  {
    Rate(a, 85.0, 70.0)
  }

  function PerformanceRating(p: real): (r: Rating)
    ensures r == Excellent <==> 85.0 <= p
    ensures r == GoodRating <==> 70.0 <= p < 85.0
    ensures r == NeedsImprovement <==> p < 70.0
  {
    Rate(p, 85.0, 70.0)
  }

  function QualityRating(q: real): (r: Rating)
    ensures r == Excellent <==> 95.0 <= q
    ensures r == GoodRating <==> 85.0 <= q < 95.0
    ensures r == NeedsImprovement <==> q < 85.0
  {
    Rate(q, 95.0, 85.0)
  }

  /** A metric rated excellent never appears in the loss analysis, and each one below target does. */
  lemma ExcellentMeansNoLoss(availability: real, performance: real, quality: real)
    ensures AvailabilityRating(availability) == Excellent <==> !(availability < 85.0)
    ensures PerformanceRating(performance) == Excellent <==> !(performance < 85.0)
    ensures QualityRating(quality) == Excellent <==> !(quality < 95.0)
  {
  }

  /**
   * One OEE record as the backend sends it; `None` is a field whose `parseFloat` (or
   * `parseInt`) gives NaN. The part counts are already the integers `parseInt` read.
   */
  datatype Record = Record(
    availability: Option<real>, performance: Option<real>, quality: Option<real>,
    oeePercentage: Option<real>, oeeLoss: Option<real>,
    runtimeMins: Option<real>, downtimeSec: Option<real>, productionTimeSec: Option<real>,
    machiningTimeSec: Option<real>, totalParts: Option<int>, goodParts: Option<int>,
    targetParts: Option<int>, cycleTimeMins: Option<real>)

  /** The parsed figures: every missing number reads as 0, seconds converted to minutes. */
  datatype Figures = Figures(
    availability: real, performance: real, quality: real, oeePercentage: real, oeeLoss: real,
    runtimeMins: real, downtimeMins: real, productionTimeMins: real, machiningTimeMins: real,
    totalParts: int, goodParts: int, targetParts: int, cycleTimeMins: real)

  function Parse(rec: Record): (f: Figures)
    ensures rec.availability.None? ==> f.availability == 0.0
    ensures rec.availability.Some? ==> f.availability == rec.availability.value
    ensures rec.performance.None? ==> f.performance == 0.0
    ensures rec.performance.Some? ==> f.performance == rec.performance.value
    ensures rec.quality.None? ==> f.quality == 0.0
    ensures rec.quality.Some? ==> f.quality == rec.quality.value
    ensures rec.oeePercentage.None? ==> f.oeePercentage == 0.0
    ensures rec.oeePercentage.Some? ==> f.oeePercentage == rec.oeePercentage.value
    ensures rec.oeeLoss.None? ==> f.oeeLoss == 0.0
    ensures rec.oeeLoss.Some? ==> f.oeeLoss == rec.oeeLoss.value
    ensures rec.runtimeMins.None? ==> f.runtimeMins == 0.0
    ensures rec.runtimeMins.Some? ==> f.runtimeMins == rec.runtimeMins.value
    ensures rec.totalParts.None? ==> f.totalParts == 0
    ensures rec.totalParts.Some? ==> f.totalParts == rec.totalParts.value
    ensures rec.goodParts.None? ==> f.goodParts == 0
    ensures rec.goodParts.Some? ==> f.goodParts == rec.goodParts.value
    ensures rec.targetParts.None? ==> f.targetParts == 0
    ensures rec.targetParts.Some? ==> f.targetParts == rec.targetParts.value
    ensures rec.cycleTimeMins.None? ==> f.cycleTimeMins == 0.0
    ensures rec.cycleTimeMins.Some? ==> f.cycleTimeMins == rec.cycleTimeMins.value
    ensures f.downtimeMins * 60.0 == rec.downtimeSec.GetOr(0.0)
    ensures f.productionTimeMins * 60.0 == rec.productionTimeSec.GetOr(0.0)
    ensures f.machiningTimeMins * 60.0 == rec.machiningTimeSec.GetOr(0.0)
  {
    Figures(
      rec.availability.GetOr(0.0), rec.performance.GetOr(0.0), rec.quality.GetOr(0.0),
      rec.oeePercentage.GetOr(0.0), rec.oeeLoss.GetOr(0.0),
      rec.runtimeMins.GetOr(0.0), rec.downtimeSec.GetOr(0.0) / 60.0,
      rec.productionTimeSec.GetOr(0.0) / 60.0, rec.machiningTimeSec.GetOr(0.0) / 60.0,
      rec.totalParts.GetOr(0), rec.goodParts.GetOr(0), rec.targetParts.GetOr(0),
      rec.cycleTimeMins.GetOr(0.0))
  }

  datatype Derived = Derived(
    plannedProductionTime: real, actualCycleTime: real, idealCycleTime: real, throughput: real,
    firstPassYield: real, rejectedParts: int, scrapRate: real,
    availabilityLoss: real, performanceLoss: real, qualityLoss: real)

  /** A ratio guarded by its denominator: 0 unless the denominator is positive. */
  function GuardedRatio(num: real, den: real): (r: real)
    ensures den <= 0.0 ==> r == 0.0
    ensures den > 0.0 ==> r * den == num
  {
    if den > 0.0 then num / den else 0.0
  }

  /** The advanced calculations and loss figures of the page. */
  function Derive(f: Figures): (d: Derived)
    ensures f.totalParts > 0 ==> d.firstPassYield + d.scrapRate == 100.0
    ensures f.totalParts <= 0 ==> d.firstPassYield == 0.0 && d.scrapRate == 0.0 && d.actualCycleTime == 0.0
    ensures 0 <= f.goodParts <= f.totalParts ==> 0.0 <= d.firstPassYield <= 100.0
    ensures f.targetParts <= 0 ==> d.idealCycleTime == 0.0
    ensures f.totalParts > 0 ==> d.firstPassYield * (f.totalParts as real) == (f.goodParts as real) * 100.0
    ensures f.totalParts > 0 ==> d.actualCycleTime * (f.totalParts as real) == f.machiningTimeMins
    ensures f.targetParts > 0 ==> d.idealCycleTime * (f.targetParts as real) == f.cycleTimeMins
    ensures f.runtimeMins <= 0.0 ==> d.throughput == 0.0
    ensures f.runtimeMins > 0.0 ==> d.throughput * f.runtimeMins == f.totalParts as real * 60.0
    ensures d.rejectedParts + f.goodParts == f.totalParts
    ensures d.plannedProductionTime + f.downtimeMins == f.runtimeMins
    ensures d.availabilityLoss + f.availability == 100.0
    ensures d.performanceLoss + f.performance == 100.0
    ensures d.qualityLoss + f.quality == 100.0
  {
    var total := f.totalParts as real;
    var good := f.goodParts as real;
    var fpy := GuardedRatio(good, total) * 100.0;
    var scrap := GuardedRatio(total - good, total) * 100.0;
    SharesOfWhole(good, total);
    Derived(
      f.runtimeMins - f.downtimeMins,
      GuardedRatio(f.machiningTimeMins, total),
      GuardedRatio(f.cycleTimeMins, f.targetParts as real),
      GuardedRatio(total, f.runtimeMins / 60.0),
      fpy, f.totalParts - f.goodParts, scrap,
      100.0 - f.availability, 100.0 - f.performance, 100.0 - f.quality)
  }

  /** The share of `part` in `whole` and of the rest add up to the whole, and lie in [0, 1]. */
  lemma SharesOfWhole(part: real, whole: real)
    ensures whole > 0.0 ==> GuardedRatio(part, whole) + GuardedRatio(whole - part, whole) == 1.0
    ensures whole > 0.0 && 0.0 <= part <= whole ==> 0.0 <= GuardedRatio(part, whole) <= 1.0
  {
    if whole > 0.0 {
      assert whole / whole == 1.0;
      assert (whole - part) / whole == whole / whole - part / whole;
      if 0.0 <= part <= whole {
        QuotientAtMostOne(part, whole);
      }
    }
  }

  /** Machining time as a share of runtime; NaN or infinite when the runtime is 0 (`None`). */
  function EquipmentEfficiency(f: Figures): (r: Option<real>)
    ensures r.None? <==> f.runtimeMins == 0.0
    ensures r.Some? ==> r.value * f.runtimeMins == f.machiningTimeMins * 100.0
  {
    if f.runtimeMins == 0.0 then None else Some(f.machiningTimeMins / f.runtimeMins * 100.0)
  }

  /** Parts produced against target, in percent; 0 without a positive target. */
  function CapacityUtilisation(f: Figures): (r: real)
    ensures f.targetParts <= 0 ==> r == 0.0
    ensures f.targetParts > 0 ==> r * f.targetParts as real == f.totalParts as real * 100.0
  {
    GuardedRatio(f.totalParts as real, f.targetParts as real) * 100.0
  }

  /** Good parts against target, in percent; 0 without a positive target. */
  function TargetEfficiency(f: Figures): (r: real)
    ensures f.targetParts <= 0 ==> r == 0.0
    ensures f.targetParts > 0 ==> r * f.targetParts as real == f.goodParts as real * 100.0
  {
    GuardedRatio(f.goodParts as real, f.targetParts as real) * 100.0
  }
}
