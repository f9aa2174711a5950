/**
 * The production-cost section of the main production report: material costs, processing costs
 * split by the category of the process report, loss costs, and the direct input total.
 */
module MainProdCost {
  import opened Wrappers
  import opened Sums
  import E = Entities
  import MainManInput

  /** The assembly lines whose processing counts as production cost (and as in-process outsourcing). */
  const ProductionCategories: set<string> := {"DIP ASSY", "PCB ASSY", "CASE ASSY", "PACKING ASSY"}
  /** The two lines whose processing counts as SM&IM cost. */
  const SmImCategories: set<string> := {"IM ASSY", "SM ASSY"}

  /** A report belongs to a category set only when its category is not null and is in the set. */
  predicate InCategories(r: E.ProcessReport, categories: set<string>)
  {
    r.category.Some? && r.category.value in categories
  }

  /** A column read as 0 for reports outside the category set. */
  function Selected(r: E.ProcessReport, categories: set<string>, f: E.ReportField): real
  {
    if InCategories(r, categories) then Val(E.Column(r.values, f)) else 0.0
  }

  /** A column total over the reports of the given categories only. */
  function FilteredTotal(reports: seq<E.ProcessReport>, categories: set<string>, f: E.ReportField): real
  {
    SumBy(reports, (r: E.ProcessReport) => Selected(r, categories, f))
  }

  function Total(reports: seq<E.ProcessReport>, f: E.ReportField): real
  {
    MainManInput.Total(reports, f)
  }

  function RawMaterialCost(reports: seq<E.ProcessReport>): real { Total(reports, E.MaterialTotalSum) }
  function SubsidiaryMaterialCost(reports: seq<E.ProcessReport>): real { Total(reports, E.ProcessUsageSubMaterialSum) }
  function TotalMaterialCost(raw: real, subsidiary: real): real { raw + subsidiary }

  function ProductionCost(reports: seq<E.ProcessReport>): real
  {
    FilteredTotal(reports, ProductionCategories, E.TotalProductionProcessingCostSum)
  }

  function SmImCost(reports: seq<E.ProcessReport>): real
  {
    FilteredTotal(reports, SmImCategories, E.TotalProductionProcessingCostSum)
  }

  function ExternalProcessingCost(reports: seq<E.ProcessReport>): real
  {
    FilteredTotal(reports, ProductionCategories, E.ProcessInOutsourcingWorkSum)
  }

  function TotalProductionCost(production: real, smIm: real, external: real): real { production + smIm + external }
  function TotalProductionAmount(totalMaterial: real, totalProduction: real): real { totalMaterial + totalProduction }

  function LossHandlingCnt(reports: seq<E.ProcessReport>): real { Total(reports, E.DefectiveQuantity) }
  function LossHandlingCost(reports: seq<E.ProcessReport>): real { Total(reports, E.DefectiveCost) }
  function NonProductiveHour(reports: seq<E.ProcessReport>): real { Total(reports, E.StopAndNonproductiveHours) }
  function NonProductiveCost(reports: seq<E.ProcessReport>): real { Total(reports, E.StopAndNonproductiveCost) }
  /** The rework count reads the reports' rework man-hours column. */
  function ReworkCnt(reports: seq<E.ProcessReport>): real { Total(reports, E.ReworkManHours) }
  function ReworkCost(reports: seq<E.ProcessReport>): real { Total(reports, E.ReworkCost) }

  function TotalLossCost(lossHandling: real, nonProductive: real, rework: real): real { lossHandling + nonProductive + rework }
  function TotalProductionDirectInputCost(totalLoss: real, totalProductionAmount: real): real { totalLoss + totalProductionAmount }

  /** The direct input cost of a list of reports, composed as the main report composes it. */
  function DirectInputCost(reports: seq<E.ProcessReport>): real
  {
    TotalProductionDirectInputCost(
      TotalLossCost(LossHandlingCost(reports), NonProductiveCost(reports), ReworkCost(reports)),
      TotalProductionAmount(
        TotalMaterialCost(RawMaterialCost(reports), SubsidiaryMaterialCost(reports)),
        TotalProductionCost(ProductionCost(reports), SmImCost(reports), ExternalProcessingCost(reports))))
  }

  /** The processing cost of the reports in neither category set. */
  function OtherProcessingCost(reports: seq<E.ProcessReport>): real
  {
    SumBy(reports, (r: E.ProcessReport) =>
      if InCategories(r, ProductionCategories) || InCategories(r, SmImCategories) then 0.0
      else Val(E.Column(r.values, E.TotalProductionProcessingCostSum)))
  }

  // ---------------------------------------------------------------------------------------------
  // Properties

  lemma FilteredTotalAppend(xs: seq<E.ProcessReport>, ys: seq<E.ProcessReport>, categories: set<string>, f: E.ReportField)
    ensures FilteredTotal(xs + ys, categories, f) == FilteredTotal(xs, categories, f) + FilteredTotal(ys, categories, f)
  {
    SumByAppend(xs, ys, (r: E.ProcessReport) => Selected(r, categories, f));
  }

  /**
   * The two category sets are disjoint, so production cost, SM&IM cost and the rest split the
   * total processing cost of all reports.
   */
  lemma {:induction false} ProcessingCostPartition(reports: seq<E.ProcessReport>)
    ensures ProductionCost(reports) + SmImCost(reports) + OtherProcessingCost(reports)
            == Total(reports, E.TotalProductionProcessingCostSum)
    decreases |reports|
  {
    if |reports| > 0 {
      var init := reports[..|reports| - 1];
      ProcessingCostPartition(init);
    }
  }

  /** A report of ACCY, MANUAL ASSY or with no category adds to neither production nor SM&IM cost. */
  lemma ExcludedCategories(xs: seq<E.ProcessReport>, r: E.ProcessReport)
    requires r.category.None? || r.category.value == "ACCY" || r.category.value == "MANUAL ASSY"
    ensures ProductionCost(xs + [r]) == ProductionCost(xs)
    ensures SmImCost(xs + [r]) == SmImCost(xs)
    ensures ExternalProcessingCost(xs + [r]) == ExternalProcessingCost(xs)
  {
    assert (xs + [r])[..|xs + [r]| - 1] == xs;
  }

  /** A report counts towards in-process outsourcing exactly when it counts towards production cost. */
  lemma ExternalUsesProductionCategories(xs: seq<E.ProcessReport>, r: E.ProcessReport)
    ensures InCategories(r, ProductionCategories) ==>
              ProductionCost(xs + [r]) == ProductionCost(xs) + Val(E.Column(r.values, E.TotalProductionProcessingCostSum))
              && ExternalProcessingCost(xs + [r]) == ExternalProcessingCost(xs) + Val(E.Column(r.values, E.ProcessInOutsourcingWorkSum))
    ensures !InCategories(r, ProductionCategories) ==>
              ProductionCost(xs + [r]) == ProductionCost(xs) && ExternalProcessingCost(xs + [r]) == ExternalProcessingCost(xs)
  {
    assert (xs + [r])[..|xs + [r]| - 1] == xs;
  }

  /** The direct input cost is additive: splitting the reports into two lists splits the cost. */
  lemma DirectInputCostAdditive(xs: seq<E.ProcessReport>, ys: seq<E.ProcessReport>)
    ensures DirectInputCost(xs + ys) == DirectInputCost(xs) + DirectInputCost(ys)
  {
    MainManInput.TotalAppend(xs, ys, E.DefectiveCost);
    MainManInput.TotalAppend(xs, ys, E.StopAndNonproductiveCost);
    MainManInput.TotalAppend(xs, ys, E.ReworkCost);
    MainManInput.TotalAppend(xs, ys, E.MaterialTotalSum);
    MainManInput.TotalAppend(xs, ys, E.ProcessUsageSubMaterialSum);
    FilteredTotalAppend(xs, ys, ProductionCategories, E.TotalProductionProcessingCostSum);
    FilteredTotalAppend(xs, ys, SmImCategories, E.TotalProductionProcessingCostSum);
    FilteredTotalAppend(xs, ys, ProductionCategories, E.ProcessInOutsourcingWorkSum);
  }

  /** Loss sums read a null column as 0: a report with no loss columns leaves every loss total unchanged. */
  lemma NullLossColumns(xs: seq<E.ProcessReport>, r: E.ProcessReport)
    requires E.DefectiveQuantity !in r.values && E.DefectiveCost !in r.values && E.StopAndNonproductiveHours !in r.values
    requires E.StopAndNonproductiveCost !in r.values && E.ReworkManHours !in r.values && E.ReworkCost !in r.values
    ensures LossHandlingCnt(xs + [r]) == LossHandlingCnt(xs) && LossHandlingCost(xs + [r]) == LossHandlingCost(xs)
    ensures NonProductiveHour(xs + [r]) == NonProductiveHour(xs) && NonProductiveCost(xs + [r]) == NonProductiveCost(xs)
    ensures ReworkCnt(xs + [r]) == ReworkCnt(xs) && ReworkCost(xs + [r]) == ReworkCost(xs)
  {
    assert (xs + [r])[..|xs + [r]| - 1] == xs;
  }
}
