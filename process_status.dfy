/**
 * The status formulas of the process production report: which source (the daily list or the lot
 * result) gives each quantity, the rounded defect and achievement rates, and the per-lot costs.
 */
module ProcessStatus {
  import opened Wrappers
  import opened Sums
  import opened Rates
  import E = Entities

  const Completed: string := "생산완료"
  const InProduction: string := "생산중"

  /** Planned quantity: from the daily row when there is one, else from the lot result. */
  function Qty(daily: Option<E.DailyRow>, lot: Option<E.LotResult>): real
    requires daily.Some? || lot.Some?
  {
    if daily.None? then Val(lot.value.qty) else daily.value.qty
  }

  /** Input quantity: the daily row's, or completed plus defective without one. */
  function InputQty(daily: Option<E.DailyRow>, outQty: real, defectQty: real): real
  {
    if daily.None? then outQty + defectQty else daily.value.inQty
  }

  function DefectQty(daily: Option<E.DailyRow>, lot: Option<E.LotResult>): real
    requires daily.Some? || lot.Some?
  {
    if daily.None? then Val(lot.value.defectQty) else daily.value.defectQty
  }

  /**
   * Completed quantity.  Without a daily row: a finished lot with no (or zero) output reports its
   * planned quantity, a lot in production reports 0, and any other lot its output.
   */
  function OutQty(daily: Option<E.DailyRow>, lot: Option<E.LotResult>): real
    requires daily.Some? || lot.Some?
  {
    if daily.Some? then daily.value.outQty
    else
      var l := lot.value;
      if l.lotState == Completed && (l.outQty.None? || l.outQty.value == 0.0) then Val(l.qty)
      else if l.lotState == InProduction then 0.0
      else Val(l.outQty)
  }

  /** Defect rate: defective over input quantity as a rounded percentage, 0 without input. */
  function DefectRate(inQty: real, defectQty: real): real
  {
    if inQty != 0.0 then Round(defectQty / inQty * 100.0) as real else 0.0
  }

  /** Achievement rate: completed over planned quantity as a rounded percentage, 0 without a plan. */
  function AchievementRate(qty: real, outQty: real): real
  {
    if qty != 0.0 then Round(outQty / qty * 100.0) as real else 0.0
  }

  function WorkInProgressQty(outQty: real, inQty: real): real
  {
    outQty - inQty
  }

  /**
   * Processing cost of a lot: the parts list's own processing cost when it is non-zero; the lot's
   * standard time at 4.5 per hour when the parts list says 0 and a lot result exists; else 0.
   */
  function CalcProcessingCost(parts: Option<E.PartsList>, lot: Option<E.LotResult>): real
  {
    if parts.Some? && Val(parts.value.processingCost) == 0.0 && lot.Some? then Val(lot.value.standardTime) * 4.5
    else if parts.None? && lot.None? then 0.0
    else if parts.Some? && Val(parts.value.processingCost) != 0.0 then Val(parts.value.processingCost)
    else 0.0
  }

  function SubTotal(costRawMaterials: real, processingCost: real): real
  {
    costRawMaterials + processingCost
  }

  function TotalProduction(outQty: real, estimateUnitPrice: real): real
  {
    outQty * estimateUnitPrice
  }

  function PerformanceMaterialCost(costRawMaterials: real, outQty: real): real
  {
    costRawMaterials * outQty
  }

  function PerformanceProcessingCost(processingCost: real, outQty: real): real
  {
    processingCost * outQty
  }

  function TotalPerformanceAmount(subTotal: real, outQty: real): real
  {
    subTotal * outQty
  }

  // ---------------------------------------------------------------------------------------------
  // Properties

  /** Without a daily row the input quantity is what was completed plus what was defective. */
  lemma InputWithoutDailyList(lot: E.LotResult)
    ensures InputQty(None, OutQty(None, Some(lot)), DefectQty(None, Some(lot)))
            == OutQty(None, Some(lot)) + Val(lot.defectQty)
  {
  }

  /** The daily row, when present, decides every quantity and the lot result is ignored. */
  lemma DailyRowDecides(d: E.DailyRow, lot: Option<E.LotResult>, outQty: real, defectQty: real)
    ensures Qty(Some(d), lot) == d.qty && OutQty(Some(d), lot) == d.outQty
    ensures DefectQty(Some(d), lot) == d.defectQty && InputQty(Some(d), outQty, defectQty) == d.inQty
  {
  }

  /** The three ways a lot result without a daily row gives its completed quantity. */
  lemma OutQtyWithoutDailyList(l: E.LotResult)
    ensures l.lotState == Completed && (l.outQty.None? || l.outQty == Some(0.0)) ==> OutQty(None, Some(l)) == Val(l.qty)
    ensures l.lotState == InProduction ==> OutQty(None, Some(l)) == 0.0
    ensures l.lotState != Completed && l.lotState != InProduction ==> OutQty(None, Some(l)) == Val(l.outQty)
    ensures l.lotState == Completed && l.outQty.Some? && l.outQty.value != 0.0 ==> OutQty(None, Some(l)) == l.outQty.value
  {
  }

  /** Each rate is 0 without a denominator, and otherwise the percentage rounded to an integer. */
  lemma RatesRounded(inQty: real, defectQty: real, qty: real, outQty: real)
    ensures inQty == 0.0 ==> DefectRate(inQty, defectQty) == 0.0
    ensures inQty != 0.0 ==> DefectRate(inQty, defectQty) == Round(Percent(defectQty, inQty)) as real
    ensures inQty != 0.0 ==> Percent(defectQty, inQty) - 0.5 < DefectRate(inQty, defectQty) <= Percent(defectQty, inQty) + 0.5
    ensures qty == 0.0 ==> AchievementRate(qty, outQty) == 0.0
    ensures qty != 0.0 ==> Percent(outQty, qty) - 0.5 < AchievementRate(qty, outQty) <= Percent(outQty, qty) + 0.5
  {
  }

  /** Work in progress is completed minus input, so it is negative when more went in than came out. */
  lemma WorkInProgressSign(outQty: real, inQty: real)
    ensures WorkInProgressQty(outQty, inQty) < 0.0 <==> outQty < inQty
    ensures WorkInProgressQty(outQty, inQty) + inQty == outQty
  {
  }

  /** The processing cost, case by case. */
  lemma ProcessingCostCases(parts: Option<E.PartsList>, lot: Option<E.LotResult>)
    ensures parts.Some? && Val(parts.value.processingCost) != 0.0 ==> CalcProcessingCost(parts, lot) == parts.value.processingCost.value
    ensures parts.Some? && Val(parts.value.processingCost) == 0.0 && lot.Some? ==> CalcProcessingCost(parts, lot) == Val(lot.value.standardTime) * 4.5
    ensures parts.Some? && Val(parts.value.processingCost) == 0.0 && lot.None? ==> CalcProcessingCost(parts, lot) == 0.0
    ensures parts.None? ==> CalcProcessingCost(parts, lot) == 0.0
  {
  }

  /** The performance amount is the material part plus the processing part. */
  lemma PerformanceAmountSplits(costRawMaterials: real, processingCost: real, outQty: real)
    ensures TotalPerformanceAmount(SubTotal(costRawMaterials, processingCost), outQty)
            == PerformanceMaterialCost(costRawMaterials, outQty) + PerformanceProcessingCost(processingCost, outQty)
  {
  }

  /** A lot with nothing completed has no production value and no performance amounts. */
  lemma NothingCompletedIsWorthNothing(costRawMaterials: real, processingCost: real, estimateUnitPrice: real)
    ensures TotalProduction(0.0, estimateUnitPrice) == 0.0
    ensures PerformanceMaterialCost(costRawMaterials, 0.0) == 0.0 && PerformanceProcessingCost(processingCost, 0.0) == 0.0
    ensures TotalPerformanceAmount(SubTotal(costRawMaterials, processingCost), 0.0) == 0.0
  {
  }
}
