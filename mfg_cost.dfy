/**
 * The manufacturing-cost section of the main production report: the monthly expense entries,
 * the manufacturing and product cost totals, and the profit and net profit rate.
 */
module MfgCost {
  import opened Wrappers
  import opened Sums
  import opened Rates
  import E = Entities
  import MainManInput

  function DirectPersonnelCost(): real { 0.0 }

  function IndirectPersonnelCost(e: Option<E.EstimatedExpenses>): real { if e.None? then 0.0 else Val(e.value.overheadCost) }
  function GeneralManagementCost(e: Option<E.EstimatedExpenses>): real { if e.None? then 0.0 else Val(e.value.generalManagementExpense) }
  function SalesCost(e: Option<E.EstimatedExpenses>): real { if e.None? then 0.0 else Val(e.value.salesManagementExpense) }
  function EquipmentDepreciationCost(e: Option<E.EstimatedExpenses>): real { if e.None? then 0.0 else Val(e.value.depreciationCost) }
  function OtherCost(e: Option<E.EstimatedExpenses>): real { if e.None? then 0.0 else Val(e.value.etc) }

  function TotalManufacturingCost(direct: real, indirect: real, general: real, sales: real, depreciation: real, other: real): real
  {
    direct + indirect + general + sales + depreciation + other
  }

  function TotalProductCost(totalManufacturing: real, directInput: real): real { totalManufacturing + directInput }

  function TotalEstimateCost(reports: seq<E.ProcessReport>): real { MainManInput.Total(reports, E.EstimateCostTotal) }

  function TotalProfit(totalEstimate: real, totalProductCost: real): real { totalEstimate - totalProductCost }

  /** Net profit rate: profit over product cost as a percentage, 0 for a zero product cost. */
  function NetProfit(totalProductCost: real, totalProfit: real): real { GuardedPercent(totalProfit, totalProductCost) }

  function InvestCost(): real { 0.0 }
  function TotalExpenditure(): real { 0.0 }

  /** The manufacturing cost of an expense entry, composed as the main report composes it. */
  function ManufacturingCostOf(e: Option<E.EstimatedExpenses>): real
  {
    TotalManufacturingCost(DirectPersonnelCost(), IndirectPersonnelCost(e), GeneralManagementCost(e), SalesCost(e),
                           EquipmentDepreciationCost(e), OtherCost(e))
  }

  // ---------------------------------------------------------------------------------------------
  // Properties

  /** Without an expense entry every expense component, and so the manufacturing cost, is 0. */
  lemma NoExpensesGiveZero()
    ensures IndirectPersonnelCost(None) == 0.0 && GeneralManagementCost(None) == 0.0 && SalesCost(None) == 0.0
    ensures EquipmentDepreciationCost(None) == 0.0 && OtherCost(None) == 0.0
    ensures ManufacturingCostOf(None) == 0.0
  {
  }

  /** With an entry, the manufacturing cost is the sum of its five recorded amounts (direct cost is 0). */
  lemma ManufacturingCostOfEntry(e: E.EstimatedExpenses)
    ensures ManufacturingCostOf(Some(e))
            == Val(e.overheadCost) + Val(e.generalManagementExpense) + Val(e.salesManagementExpense)
               + Val(e.depreciationCost) + Val(e.etc)
  {
  }

  /**
   * The net profit rate of estimate against product cost: 0 for a zero cost, otherwise the
   * percentage, positive exactly when a positive cost is below the estimate.
   */
  lemma NetProfitOfEstimate(totalEstimate: real, totalProductCost: real)
    ensures totalProductCost == 0.0 ==> NetProfit(totalProductCost, TotalProfit(totalEstimate, totalProductCost)) == 0.0
    ensures totalProductCost != 0.0 ==>
              NetProfit(totalProductCost, TotalProfit(totalEstimate, totalProductCost)) * totalProductCost
              == (totalEstimate - totalProductCost) * 100.0
    ensures totalProductCost > 0.0 ==>
              (NetProfit(totalProductCost, TotalProfit(totalEstimate, totalProductCost)) > 0.0 <==> totalEstimate > totalProductCost)
  {
    if totalProductCost > 0.0 {
      var n := NetProfit(totalProductCost, TotalProfit(totalEstimate, totalProductCost));
      assert n == (totalEstimate - totalProductCost) / totalProductCost * 100.0;
    }
  }

  /** The fixed placeholders of the section are 0. */
  lemma PlaceholdersAreZero()
    ensures DirectPersonnelCost() == 0.0 && InvestCost() == 0.0 && TotalExpenditure() == 0.0
  {
  }

  lemma TotalEstimateCostAppend(xs: seq<E.ProcessReport>, ys: seq<E.ProcessReport>)
    ensures TotalEstimateCost(xs + ys) == TotalEstimateCost(xs) + TotalEstimateCost(ys)
  {
    MainManInput.TotalAppend(xs, ys, E.EstimateCostTotal);
  }

  /** The profit is the estimate less the manufacturing cost of the expense entry and the direct input cost. */
  lemma ProfitOfExpenses(e: Option<E.EstimatedExpenses>, directInput: real, totalEstimate: real)
    ensures TotalProfit(totalEstimate, TotalProductCost(ManufacturingCostOf(e), directInput))
            == totalEstimate - ManufacturingCostOf(e) - directInput
    ensures e.None? ==> TotalProfit(totalEstimate, TotalProductCost(ManufacturingCostOf(e), directInput)) == totalEstimate - directInput
  {
    ProfitOfProductCost(ManufacturingCostOf(e), directInput, totalEstimate);
    if e.None? {
      NoExpensesGiveZero();
    }
  }

  lemma ProfitOfProductCost(manufacturing: real, directInput: real, totalEstimate: real)
    ensures TotalProfit(totalEstimate, TotalProductCost(manufacturing, directInput)) == totalEstimate - manufacturing - directInput
  {
  }
}
