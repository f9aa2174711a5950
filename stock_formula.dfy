/**
 * The process-stock formulas: per-set price and item names taken from the day's performance
 * status (with defaults when there is none), and the quantities and costs of work in progress,
 * of lots waiting for and past QC inspection, and of defectives.
 */
module StockFormula {
  import opened Wrappers
  import opened Sums
  import opened Util
  import E = Entities

  function PricePerSetOf(s: E.PerformanceStatus): Option<real> { s.pricePerSet }
  function ProductNameOf(s: E.PerformanceStatus): Option<string> { s.productName }
  function ModelNoOf(s: E.PerformanceStatus): Option<string> { s.modelNo }
  function SpecificationOf(s: E.PerformanceStatus): Option<string> { s.specification }
  function MaterialCostOf(s: E.PerformanceStatus): Option<real> { s.materialCost }
  function ProcessingCostOf(s: E.PerformanceStatus): Option<real> { s.processingCost }
  function CompletedOf(s: E.PerformanceStatus): Option<real> { s.completedQuantity }
  function DefectiveOf(s: E.PerformanceStatus): Option<real> { s.defectiveQuantity }

  function PricePerSet(status: Option<E.PerformanceStatus>): real { CheckNullAndSetDefault(status, PricePerSetOf, 0.0) }
  function ProductName(status: Option<E.PerformanceStatus>): string { CheckNullAndSetDefault(status, ProductNameOf, "실적 입력전") }
  function ModelNo(status: Option<E.PerformanceStatus>): string { CheckNullAndSetDefault(status, ModelNoOf, "Unknown modelNo") }
  function Specification(status: Option<E.PerformanceStatus>): string { CheckNullAndSetDefault(status, SpecificationOf, "") }
  function MaterialCost(status: Option<E.PerformanceStatus>): real { CheckNullAndSetDefault(status, MaterialCostOf, 0.0) }
  function ProcessingCost(status: Option<E.PerformanceStatus>): real { CheckNullAndSetDefault(status, ProcessingCostOf, 0.0) }

  function TotalCost(status: Option<E.PerformanceStatus>): real
  {
    CheckNullAndSetDefault(status, MaterialCostOf, 0.0) + CheckNullAndSetDefault(status, ProcessingCostOf, 0.0)
  }

  /** Work in progress: the daily row's input quantity, 0 without a row. */
  function WipQuantity(daily: Option<E.DailyRow>): real { if daily.None? then 0.0 else daily.value.inQty }
  function WipCost(wipQuantity: real, pricePerSet: real): real { wipQuantity * pricePerSet }

  function QcPendingQuantity(status: Option<E.PerformanceStatus>): real { CheckNullAndSetDefault(status, CompletedOf, 0.0) }
  function QcPendingCost(qcPendingQuantity: real, pricePerSet: real): real { qcPendingQuantity * pricePerSet }

  function PassedTerm(q: Option<E.QcReport>): real
  {
    if q.Some? && q.value.passQuantityInspection.Some? then q.value.passQuantityInspection.value else 0.0
  }

  function DefectTerm(q: Option<E.QcReport>): real
  {
    if q.Some? && q.value.defectiveQuantityInspection.Some? then q.value.defectiveQuantityInspection.value else 0.0
  }

  /** Passed QC: the pass quantities of the inspection reports, skipping null entries and null quantities. */
  function QcPassedQuantity(qcList: seq<Option<E.QcReport>>): real { SumBy(qcList, PassedTerm) }
  function QcPassedCost(qcPassedQuantity: real, pricePerSet: real): real { qcPassedQuantity * pricePerSet }

  /** Defectives: the inspection defects plus the status row's own defective quantity. */
  function DefectiveQuantity(qcList: seq<Option<E.QcReport>>, status: Option<E.PerformanceStatus>): real
  {
    SumBy(qcList, DefectTerm) + CheckNullAndSetDefault(status, DefectiveOf, 0.0)
  }

  function DefectiveCost(defectiveQuantity: real, pricePerSet: real): real { defectiveQuantity * pricePerSet }

  function TotalQuantity(wip: real, qcPending: real, qcPassed: real): real { wip + qcPending + qcPassed }
  function TotalCostSummary(wipCost: real, qcPendingCost: real, qcPassedCost: real): real { wipCost + qcPendingCost + qcPassedCost }

  // ---------------------------------------------------------------------------------------------
  // Properties

  /** Without a status row the price, costs and quantities are 0 and the names take their defaults. */
  lemma NoStatusDefaults()
    ensures PricePerSet(None) == 0.0 && MaterialCost(None) == 0.0 && ProcessingCost(None) == 0.0
    ensures QcPendingQuantity(None) == 0.0 && TotalCost(None) == 0.0
    ensures ProductName(None) == "실적 입력전" && ModelNo(None) == "Unknown modelNo" && Specification(None) == ""
  {
  }

  /** The total cost of a lot is its material cost plus its processing cost, each null as 0. */
  lemma TotalCostIsMaterialPlusProcessing(status: Option<E.PerformanceStatus>)
    ensures TotalCost(status) == MaterialCost(status) + ProcessingCost(status)
    ensures status.Some? ==> TotalCost(status) == Val(status.value.materialCost) + Val(status.value.processingCost)
  {
  }

  /** A null inspection entry, or one without a pass quantity, adds nothing to the passed quantity. */
  lemma QcPassedSkipsNulls(qcList: seq<Option<E.QcReport>>, q: Option<E.QcReport>)
    ensures q.None? || q.value.passQuantityInspection.None? ==> QcPassedQuantity(qcList + [q]) == QcPassedQuantity(qcList)
    ensures q.Some? && q.value.passQuantityInspection.Some? ==>
              QcPassedQuantity(qcList + [q]) == QcPassedQuantity(qcList) + q.value.passQuantityInspection.value
  {
    assert (qcList + [q])[..|qcList + [q]| - 1] == qcList;
  }

  /** Defectives add up over inspection lists and include the status row's defectives once. */
  lemma DefectiveQuantityDecomposes(xs: seq<Option<E.QcReport>>, ys: seq<Option<E.QcReport>>, status: Option<E.PerformanceStatus>)
    ensures DefectiveQuantity(xs + ys, status) == DefectiveQuantity(xs, status) + SumBy(ys, DefectTerm)
    ensures DefectiveQuantity([], status) == CheckNullAndSetDefault(status, DefectiveOf, 0.0)
  {
    SumByAppend(xs, ys, DefectTerm);
  }

  /** Each stock cost is its quantity at the per-set price, so the cost summary is the total quantity at that price. */
  lemma CostSummaryIsQuantityAtPrice(wip: real, qcPending: real, qcPassed: real, pricePerSet: real)
    ensures TotalCostSummary(WipCost(wip, pricePerSet), QcPendingCost(qcPending, pricePerSet), QcPassedCost(qcPassed, pricePerSet))
            == TotalQuantity(wip, qcPending, qcPassed) * pricePerSet
  {
  }

  /**
   * The stock total leaves defectives out: changing the defective quantity of an inspection entry
   * changes the defective figure but not the total quantity.
   */
  lemma TotalQuantityExcludesDefectives(daily: Option<E.DailyRow>, status: Option<E.PerformanceStatus>,
                                        qcList: seq<Option<E.QcReport>>, pass: Option<real>, d1: Option<real>, d2: Option<real>)
    ensures TotalQuantity(WipQuantity(daily), QcPendingQuantity(status), QcPassedQuantity(qcList + [Some(E.QcReport(pass, d1))]))
            == TotalQuantity(WipQuantity(daily), QcPendingQuantity(status), QcPassedQuantity(qcList + [Some(E.QcReport(pass, d2))]))
  {
    QcPassedSkipsNulls(qcList, Some(E.QcReport(pass, d1)));
    QcPassedSkipsNulls(qcList, Some(E.QcReport(pass, d2)));
  }

  /** Defectives are valued at the per-set price, so the defective cost adds up over inspection lists. */
  lemma {:induction false} DefectiveCostDecomposes(xs: seq<Option<E.QcReport>>, ys: seq<Option<E.QcReport>>, status: Option<E.PerformanceStatus>, pricePerSet: real)
    ensures DefectiveCost(DefectiveQuantity(xs + ys, status), pricePerSet)
            == DefectiveCost(DefectiveQuantity(xs, status), pricePerSet) + SumBy(ys, DefectTerm) * pricePerSet
  {
    DefectiveQuantityDecomposes(xs, ys, status);
    ScaleSum(DefectiveQuantity(xs + ys, status), DefectiveQuantity(xs, status), SumBy(ys, DefectTerm), pricePerSet);
  }

  lemma ScaleSum(q: real, a: real, b: real, price: real)
    requires q == a + b
    ensures DefectiveCost(q, price) == DefectiveCost(a, price) + b * price
  {
  }
}
