/**
 * The production-cost formulas of the process production report: material and processing sums
 * over the day's status rows, the loss costs, the placeholders for manufacturing expenses, and
 * the guarded profit, loss, material and processing rates.
 */
module ProcessCost {
  import opened Wrappers
  import opened Sums
  import opened Rates
  import opened Util
  import E = Entities

  function MaterialCost(s: E.PerformanceStatus): Option<real> { s.materialCost }
  function ProcessingCost(s: E.PerformanceStatus): Option<real> { s.performanceProcessingCost }
  function Defective(s: E.PerformanceStatus): Option<real> { s.defectiveQuantity }
  function Production(s: E.PerformanceStatus): Option<real> { s.totalProduction }

  function DefectTerm(s: E.PerformanceStatus): real
  {
    Val(s.defectiveQuantity) * Val(s.subtotal)
  }

  function TotalProductionMaterialCostSum(status: seq<E.PerformanceStatus>): real
  {
    SumOptBy(status, MaterialCost)
  }

  function MaterialTotalSum(totalMaterialCost: real, processUsageSubMaterialSum: real): real
  {
    totalMaterialCost + processUsageSubMaterialSum
  }

  function TotalProductionProcessingCostSum(status: seq<E.PerformanceStatus>): real
  {
    SumOptBy(status, ProcessingCost)
  }

  function OutsourcingOf(r: E.ProcessReport): Option<real>
  {
    E.Column(r.values, E.ProcessInOutsourcingWorkSum)
  }

  /** In-process outsourcing of the previous report, 0 when there is none or it is null. */
  function ProcessInOutsourcingWorkSum(previous: Option<E.ProcessReport>): real
  {
    CheckNullAndSetDefault(previous, OutsourcingOf, 0.0)
  }

  function ProcessTotalSum(processingCost: real, outsourcingCost: real): real
  {
    processingCost + outsourcingCost
  }

  function TotalProductionActualSum(materialCostSum: real, processTotalSum: real): real
  {
    materialCostSum + processTotalSum
  }

  function DefectiveQuantity(status: seq<E.PerformanceStatus>): real
  {
    SumOptBy(status, Defective)
  }

  /** Defective cost: each row's defective quantity times its subtotal, summed. */
  function DefectiveCost(status: seq<E.PerformanceStatus>): real
  {
    SumBy(status, DefectTerm)
  }

  /** Stop and non-productive hours of the present report: 0 unless both columns are set. */
  function StopAndNonproductiveHours(present: E.ProcessReport): real
  {
    var stop := E.Column(present.values, E.StopManHours);
    var nonProductive := E.Column(present.values, E.NonProductiveManHours);
    if stop.None? || nonProductive.None? then 0.0 else stop.value + nonProductive.value
  }

  function StopAndNonproductiveCost(hours: real, manRate: real): real
  {
    hours * manRate
  }

  function ReworkHours(present: E.ProcessReport): real
  {
    Val(E.Column(present.values, E.ReworkHours))
  }

  function ReworkCost(reworkHours: real, manRate: real): real
  {
    reworkHours * manRate
  }

  function TotalCost(defectCost: real, stopAndNonProductiveCost: real, reworkCost: real): real
  {
    stopAndNonProductiveCost + reworkCost + defectCost
  }

  /** The five manufacturing-expense columns of the process report, which the code fixes at 0. */
  function ManufacturingExpensePlaceholders(): (r: seq<real>)
  {
    [0.0, 0.0, 0.0, 0.0, 0.0]
  }

  function EstimateCostTotal(status: seq<E.PerformanceStatus>): real
  {
    SumOptBy(status, Production)
  }

  /** Input amount: available man-hours at the man rate, plus outsourcing and processing; 0 without a report. */
  function ProcessTotalProductionInputAmount(present: Option<E.ProcessReport>, outsourcing: real, processing: real, manRate: real): real
  {
    if present.None? then 0.0 else Val(E.Column(present.value.values, E.AvailableManHours)) * manRate + outsourcing + processing
  }

  function ActualProfit(estimateCost: real, inputAmount: real): real
  {
    estimateCost - inputAmount
  }

  function ProfitRate(actualProfit: real, estimateCost: real): real
  {
    GuardedPercent(actualProfit, estimateCost)
  }

  function LossRate(actualSum: real, totalCost: real): real
  {
    GuardedPercent(totalCost, actualSum)
  }

  function MaterialRate(actualSum: real, materialTotalSum: real): real
  {
    GuardedPercent(materialTotalSum, actualSum)
  }

  function ProcessingRate(actualSum: real, processTotalSum: real): real
  {
    GuardedPercent(processTotalSum, actualSum)
  }

  // ---------------------------------------------------------------------------------------------
  // Properties

  /** The list sums are additive over concatenation and 0 for an empty list. */
  lemma ListSumsAdditive(xs: seq<E.PerformanceStatus>, ys: seq<E.PerformanceStatus>)
    ensures TotalProductionMaterialCostSum(xs + ys) == TotalProductionMaterialCostSum(xs) + TotalProductionMaterialCostSum(ys)
    ensures TotalProductionProcessingCostSum(xs + ys) == TotalProductionProcessingCostSum(xs) + TotalProductionProcessingCostSum(ys)
    ensures DefectiveQuantity(xs + ys) == DefectiveQuantity(xs) + DefectiveQuantity(ys)
    ensures DefectiveCost(xs + ys) == DefectiveCost(xs) + DefectiveCost(ys)
    ensures EstimateCostTotal(xs + ys) == EstimateCostTotal(xs) + EstimateCostTotal(ys)
    ensures TotalProductionMaterialCostSum([]) == 0.0 && EstimateCostTotal([]) == 0.0 && DefectiveCost([]) == 0.0
  {
    SumOptByAppend(xs, ys, MaterialCost);
    SumOptByAppend(xs, ys, ProcessingCost);
    SumOptByAppend(xs, ys, Defective);
    SumByAppend(xs, ys, DefectTerm);
    SumOptByAppend(xs, ys, Production);
  }

  /** A status row whose columns are all null adds nothing to any sum. */
  lemma NullRowAddsNothing(xs: seq<E.PerformanceStatus>, s: E.PerformanceStatus)
    requires s.materialCost.None? && s.performanceProcessingCost.None? && s.defectiveQuantity.None? && s.totalProduction.None?
    ensures TotalProductionMaterialCostSum(xs + [s]) == TotalProductionMaterialCostSum(xs)
    ensures TotalProductionProcessingCostSum(xs + [s]) == TotalProductionProcessingCostSum(xs)
    ensures DefectiveQuantity(xs + [s]) == DefectiveQuantity(xs)
    ensures DefectiveCost(xs + [s]) == DefectiveCost(xs)
    ensures EstimateCostTotal(xs + [s]) == EstimateCostTotal(xs)
  {
    assert (xs + [s])[..|xs + [s]| - 1] == xs;
  }

  /** Stop and non-productive hours are their sum when both are recorded and 0 otherwise. */
  lemma StopAndNonproductiveCases(present: E.ProcessReport)
    ensures E.StopManHours in present.values && E.NonProductiveManHours in present.values ==>
              StopAndNonproductiveHours(present) == present.values[E.StopManHours] + present.values[E.NonProductiveManHours]
    ensures E.StopManHours !in present.values || E.NonProductiveManHours !in present.values ==> StopAndNonproductiveHours(present) == 0.0
  {
  }

  /** The total loss cost is the defect, stop and rework costs, and at a common man rate the hours add first. */
  lemma TotalCostParts(defectCost: real, stopHours: real, reworkHours: real, manRate: real)
    ensures TotalCost(defectCost, StopAndNonproductiveCost(stopHours, manRate), ReworkCost(reworkHours, manRate))
            == defectCost + (stopHours + reworkHours) * manRate
  {
  }

  /** Every manufacturing-expense placeholder is 0. */
  lemma PlaceholdersAreZero()
    ensures |ManufacturingExpensePlaceholders()| == 5
    ensures forall i :: 0 <= i < |ManufacturingExpensePlaceholders()| ==> ManufacturingExpensePlaceholders()[i] == 0.0
  {
  }

  /** Each rate is 0 when its denominator is 0. */
  lemma RatesGuarded(actualProfit: real, totalCost: real, materialTotalSum: real, processTotalSum: real)
    ensures ProfitRate(actualProfit, 0.0) == 0.0
    ensures LossRate(0.0, totalCost) == 0.0
    ensures MaterialRate(0.0, materialTotalSum) == 0.0
    ensures ProcessingRate(0.0, processTotalSum) == 0.0
  {
  }

  /** The actual sum is material plus processing, so the two shares make 100 percent of any non-zero sum. */
  lemma MaterialAndProcessingShares(materialTotalSum: real, processTotalSum: real)
    requires TotalProductionActualSum(materialTotalSum, processTotalSum) != 0.0
    ensures MaterialRate(TotalProductionActualSum(materialTotalSum, processTotalSum), materialTotalSum)
          + ProcessingRate(TotalProductionActualSum(materialTotalSum, processTotalSum), processTotalSum) == 100.0
  {
    var s := TotalProductionActualSum(materialTotalSum, processTotalSum);
    var m := MaterialRate(s, materialTotalSum);
    var p := ProcessingRate(s, processTotalSum);
    assert m + p == (materialTotalSum / s + processTotalSum / s) * 100.0;
    assert materialTotalSum / s + processTotalSum / s == s / s;
    assert s / s == 1.0;
  }

  /** No present report gives an input amount of 0; with one, the man-hours are charged at the man rate. */
  lemma InputAmountCases(present: Option<E.ProcessReport>, outsourcing: real, processing: real, manRate: real)
    ensures present.None? ==> ProcessTotalProductionInputAmount(present, outsourcing, processing, manRate) == 0.0
    ensures present.Some? && E.AvailableManHours !in present.value.values ==>
              ProcessTotalProductionInputAmount(present, outsourcing, processing, manRate) == outsourcing + processing
  {
  }

  /** Outsourcing is carried over from the previous report, 0 without one or when it is null. */
  lemma OutsourcingCarriedOver(previous: Option<E.ProcessReport>)
    ensures previous.None? ==> ProcessInOutsourcingWorkSum(previous) == 0.0
    ensures previous.Some? && E.ProcessInOutsourcingWorkSum in previous.value.values ==>
              ProcessInOutsourcingWorkSum(previous) == previous.value.values[E.ProcessInOutsourcingWorkSum]
    ensures previous.Some? && E.ProcessInOutsourcingWorkSum !in previous.value.values ==> ProcessInOutsourcingWorkSum(previous) == 0.0
  {
  }

  /** The actual sum is the four material and processing parts. */
  lemma ActualSumOfParts(materialCost: real, subMaterial: real, processingCost: real, outsourcing: real)
    ensures TotalProductionActualSum(MaterialTotalSum(materialCost, subMaterial), ProcessTotalSum(processingCost, outsourcing))
            == materialCost + subMaterial + processingCost + outsourcing
  {
  }

  /** The profit rate is 0 without an estimate; against a positive estimate it is positive exactly when the input stays below it. */
  lemma ProfitRateSign(estimateCost: real, inputAmount: real)
    ensures estimateCost == 0.0 ==> ProfitRate(ActualProfit(estimateCost, inputAmount), estimateCost) == 0.0
    ensures estimateCost > 0.0 ==> (ProfitRate(ActualProfit(estimateCost, inputAmount), estimateCost) > 0.0 <==> inputAmount < estimateCost)
  {
    if estimateCost > 0.0 {
      var p := ProfitRate(ActualProfit(estimateCost, inputAmount), estimateCost);
      assert p == (estimateCost - inputAmount) / estimateCost * 100.0;
    }
  }

  /** Rework hours are the present report's rework column, 0 when it is not recorded, and cost at the man rate. */
  lemma ReworkOfReport(present: E.ProcessReport, manRate: real)
    ensures E.ReworkHours in present.values ==> ReworkCost(ReworkHours(present), manRate) == present.values[E.ReworkHours] * manRate
    ensures E.ReworkHours !in present.values ==> ReworkHours(present) == 0.0 && ReworkCost(ReworkHours(present), manRate) == 0.0
  {
  }
}
