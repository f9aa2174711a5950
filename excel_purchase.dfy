/**
 * The purchase-report Excel export (service/ExcelParchase.java): the "합계" total row each of
 * the five tables of the purchase-and-receipt response receives before it is written out.
 */
module ExcelPurchase {
  import opened Wrappers
  import opened Sums
  import opened PurchaseFields
  import opened PurchaseResponse

  const TotalCategory: string := "합계"

  // ---------------------------------------------------------------------------------------------
  // The daily material-cost table

  function AmountOf(k: AmountKey): MaterialRow -> Option<real>
  {
    (r: MaterialRow) => Cell(r.amounts, k)
  }

  /** `accumulateField` of one amount column: the null-as-0 sum, never null. */
  function ColumnSum(list: seq<MaterialRow>, k: AmountKey): Option<real>
  {
    Some(SumOptBy(list, AmountOf(k)))
  }

  function TotalTriple(list: seq<MaterialRow>, p: Period, t: Triple): Columns
  {
    Columns(ColumnSum(list, Amount(p, DirectOf(t))), ColumnSum(list, Amount(p, SubcontractOf(t))),
            ColumnSum(list, Amount(p, TotalOf(t))))
  }

  function TotalPeriod(list: seq<MaterialRow>, p: Period): PeriodAmounts
  {
    PeriodAmounts(TotalTriple(list, p, Orders), TotalTriple(list, p, Receipts), TotalTriple(list, p, Pending))
  }

  /** `createTotalRow`: category "합계", the 27 column sums, and the two plan fields left unset. */
  function CreateTotalRow(list: seq<MaterialRow>): MaterialRow
  {
    MaterialRow(Some(TotalCategory), None, None,
                MaterialAmounts(TotalPeriod(list, Daily), TotalPeriod(list, Weekly), TotalPeriod(list, Monthly)))
  }

  // ---------------------------------------------------------------------------------------------
  // The model purchase-plan and receipt-status tables

  datatype PlanRow = PlanRow(
    no: int, category: Option<string>, monthlySalesPlan: Option<real>, materialCostRatio: Option<real>,
    monthlyPurchasePlan: Option<real>, monthlyOrderAmount: Option<real>, remarks: Option<string>)

  function PlanOf(f: PlanField): PlanRow -> Option<real>
  {
    (r: PlanRow) =>
      match f
      case SalesPlanMonthly => r.monthlySalesPlan
      case MaterialCostRatio => r.materialCostRatio
      case PurchasePlanMonthly => r.monthlyPurchasePlan
      case OrderAmountMonthly => r.monthlyOrderAmount
  }

  /**
   * `createPurchaseTotalRow`: the builder sets the purchase plan twice (to the same sum) and the
   * cost ratio once; the sales plan and the order amount keep their null default.
   */
  function CreatePurchaseTotalRow(list: seq<PlanRow>): PlanRow
  {
    var purchase := Some(SumOptBy(list, PlanOf(PurchasePlanMonthly)));
    var ratio := Some(SumOptBy(list, PlanOf(MaterialCostRatio)));
    PlanRow(0, Some(TotalCategory), None, None, purchase, None, None).(materialCostRatio := ratio).(monthlyPurchasePlan := purchase)
  }

  datatype ReceiptRow = ReceiptRow(
    no: int, category: Option<string>, directPurchaseReceipt: Option<real>, subcontractReceipt: Option<real>,
    totalMaterialReceipt: Option<real>, receiptRatioMonthly: Option<real>, remarks: Option<string>)

  function ReceiptOf(f: ReceiptField): ReceiptRow -> Option<real>
  {
    (r: ReceiptRow) =>
      match f
      case DirectPurchaseReceipt => r.directPurchaseReceipt
      case SubcontractReceiptAmount => r.subcontractReceipt
      case TotalMaterialReceipt => r.totalMaterialReceipt
      case ReceiptRatioMonthly => r.receiptRatioMonthly
  }

  /** `createReceiptTotal`: the four receipt column sums. */
  function CreateReceiptTotal(list: seq<ReceiptRow>): ReceiptRow
  {
    ReceiptRow(0, Some(TotalCategory),
               Some(SumOptBy(list, ReceiptOf(DirectPurchaseReceipt))),
               Some(SumOptBy(list, ReceiptOf(SubcontractReceiptAmount))),
               Some(SumOptBy(list, ReceiptOf(TotalMaterialReceipt))),
               Some(SumOptBy(list, ReceiptOf(ReceiptRatioMonthly))), None)
  }

  // ---------------------------------------------------------------------------------------------
  // The stock-status and warehouse tables

  function StockOf(f: StockField): StockRow -> Option<real>
  {
    (r: StockRow) => StockCell(r.values, f)
  }

  /** `createStockTotal`: the three stock column sums. */
  function CreateStockTotal(list: seq<StockRow>): StockRow
  {
    StockRow(Some(TotalCategory),
             Columns(Some(SumOptBy(list, StockOf(DirectPurchaseMaterial))),
                     Some(SumOptBy(list, StockOf(SubcontractMaterial))),
                     Some(SumOptBy(list, StockOf(TotalMaterial)))))
  }

  /** Waiting, in-process and total stock of one material group. */
  datatype StateColumns = StateColumns(waiting: Option<real>, inProcess: Option<real>, total: Option<real>)

  datatype WarehouseRow = WarehouseRow(
    category: Option<string>, wiring: StateColumns, mechanism: StateColumns, packing: StateColumns,
    subMaterials: StateColumns, other: StateColumns)

  function GroupOf(r: WarehouseRow, g: MaterialGroup): StateColumns
  {
    match g
    case Wiring => r.wiring
    case Mechanism => r.mechanism
    case Packing => r.packing
    case SubMaterials => r.subMaterials
    case Other => r.other
  }

  /** The warehouse column a field names, e.g. `packingInProcess` for Warehouse(Packing, InProcess). */
  function WarehouseCell(r: WarehouseRow, w: WarehouseField): Option<real>
  {
    var c := GroupOf(r, w.group);
    match w.state
    case Waiting => c.waiting
    case InProcess => c.inProcess
    case StateTotal => c.total
  }

  function WarehouseOf(w: WarehouseField): WarehouseRow -> Option<real>
  {
    (r: WarehouseRow) => WarehouseCell(r, w)
  }

  function GroupTotal(list: seq<WarehouseRow>, g: MaterialGroup): StateColumns
  {
    StateColumns(Some(SumOptBy(list, WarehouseOf(Warehouse(g, Waiting)))),
                 Some(SumOptBy(list, WarehouseOf(Warehouse(g, InProcess)))),
                 Some(SumOptBy(list, WarehouseOf(Warehouse(g, StateTotal)))))
  }

  /** `createWarehouseTotal`: the fifteen warehouse column sums. */
  function CreateWarehouseTotal(list: seq<WarehouseRow>): WarehouseRow
  {
    WarehouseRow(Some(TotalCategory), GroupTotal(list, Wiring), GroupTotal(list, Mechanism),
                 GroupTotal(list, Packing), GroupTotal(list, SubMaterials), GroupTotal(list, Other))
  }

  // ---------------------------------------------------------------------------------------------
  // The response the export appends to

  /** The five tables of the response; the receipt and plan tables may be null. */
  class PurchaseAndReceipt {
    var dailyMaterialCost: seq<MaterialRow>
    var stockStatus: seq<StockRow>
    var modelReceiptStatus: Option<seq<ReceiptRow>>
    var modelPurchasePlan: Option<seq<PlanRow>>
    var warehouseMaterialStatus: seq<WarehouseRow>

    constructor (daily: seq<MaterialRow>, stock: seq<StockRow>, receipt: Option<seq<ReceiptRow>>,
                 plan: Option<seq<PlanRow>>, warehouse: seq<WarehouseRow>)
      ensures dailyMaterialCost == daily && stockStatus == stock && modelReceiptStatus == receipt
      ensures modelPurchasePlan == plan && warehouseMaterialStatus == warehouse
    {
      dailyMaterialCost := daily;
      stockStatus := stock;
      modelReceiptStatus := receipt;
      modelPurchasePlan := plan;
      warehouseMaterialStatus := warehouse;
    }

    /**
     * The appends at the start of `addData`: each table gets the total of its own rows at its
     * end; a null receipt or plan table stays null.
     */
    method AddTotals()
      modifies this
      ensures dailyMaterialCost == old(dailyMaterialCost) + [CreateTotalRow(old(dailyMaterialCost))]
      ensures stockStatus == old(stockStatus) + [CreateStockTotal(old(stockStatus))]
      ensures old(modelReceiptStatus).None? ==> modelReceiptStatus.None?
      ensures old(modelReceiptStatus).Some? ==>
                modelReceiptStatus == Some(old(modelReceiptStatus).value + [CreateReceiptTotal(old(modelReceiptStatus).value)])
      ensures old(modelPurchasePlan).None? ==> modelPurchasePlan.None?
      ensures old(modelPurchasePlan).Some? ==>
                modelPurchasePlan == Some(old(modelPurchasePlan).value + [CreatePurchaseTotalRow(old(modelPurchasePlan).value)])
      ensures warehouseMaterialStatus == old(warehouseMaterialStatus) + [CreateWarehouseTotal(old(warehouseMaterialStatus))]
    {
      dailyMaterialCost := dailyMaterialCost + [CreateTotalRow(dailyMaterialCost)];
      stockStatus := stockStatus + [CreateStockTotal(stockStatus)];
      if modelReceiptStatus.Some? {
        modelReceiptStatus := Some(modelReceiptStatus.value + [CreateReceiptTotal(modelReceiptStatus.value)]);
      }
      if modelPurchasePlan.Some? {
        modelPurchasePlan := Some(modelPurchasePlan.value + [CreatePurchaseTotalRow(modelPurchasePlan.value)]);
      }
      warehouseMaterialStatus := warehouseMaterialStatus + [CreateWarehouseTotal(warehouseMaterialStatus)];
    }
  }

  // ---------------------------------------------------------------------------------------------
  // Properties

  /** Every amount cell of the total row is the null-as-0 sum of that column over the rows. */
  lemma TotalRowCells(list: seq<MaterialRow>, k: AmountKey)
    ensures CreateTotalRow(list).category == Some(TotalCategory)
    ensures CreateTotalRow(list).monthlySalesPlan.None? && CreateTotalRow(list).monthlyPurchasePlan.None?
    ensures Cell(CreateTotalRow(list).amounts, k) == Some(SumOptBy(list, AmountOf(k)))
  {
    var t := TripleOf(k.kind);
    assert Cell(CreateTotalRow(list).amounts, k) == PeriodCell(TotalPeriod(list, k.period), k.kind);
  }

  /** The plan total: purchase plan and cost ratio summed, sales plan and order amount unset. */
  lemma PurchaseTotalCells(list: seq<PlanRow>, f: PlanField)
    ensures CreatePurchaseTotalRow(list).category == Some(TotalCategory)
    ensures (f == MaterialCostRatio || f == PurchasePlanMonthly) ==> PlanOf(f)(CreatePurchaseTotalRow(list)) == Some(SumOptBy(list, PlanOf(f)))
    ensures (f == SalesPlanMonthly || f == OrderAmountMonthly) ==> PlanOf(f)(CreatePurchaseTotalRow(list)).None?
  {
  }

  lemma ReceiptTotalCells(list: seq<ReceiptRow>, f: ReceiptField)
    ensures CreateReceiptTotal(list).category == Some(TotalCategory)
    ensures ReceiptOf(f)(CreateReceiptTotal(list)) == Some(SumOptBy(list, ReceiptOf(f)))
  {
  }

  lemma StockTotalCells(list: seq<StockRow>, f: StockField)
    ensures CreateStockTotal(list).category == Some(TotalCategory)
    ensures StockCell(CreateStockTotal(list).values, f) == Some(SumOptBy(list, StockOf(f)))
  {
  }

  lemma WarehouseTotalCells(list: seq<WarehouseRow>, w: WarehouseField)
    ensures CreateWarehouseTotal(list).category == Some(TotalCategory)
    ensures WarehouseCell(CreateWarehouseTotal(list), w) == Some(SumOptBy(list, WarehouseOf(w)))
  {
    assert GroupOf(CreateWarehouseTotal(list), w.group) == GroupTotal(list, w.group);
  }

  /** A table without rows gets a total row of zeros. */
  lemma EmptyTotals(k: AmountKey, w: WarehouseField, f: StockField)
    ensures Cell(CreateTotalRow([]).amounts, k) == Some(0.0)
    ensures WarehouseCell(CreateWarehouseTotal([]), w) == Some(0.0)
    ensures StockCell(CreateStockTotal([]).values, f) == Some(0.0)
  {
    TotalRowCells([], k);
    WarehouseTotalCells([], w);
    StockTotalCells([], f);
  }

  /**
   * The total of two runs of rows is the sum of their totals, cell by cell: null cells count as
   * 0 wherever they sit.
   */
  lemma TotalRowAppend(xs: seq<MaterialRow>, ys: seq<MaterialRow>, k: AmountKey)
    ensures Cell(CreateTotalRow(xs + ys).amounts, k)
            == Some(Val(Cell(CreateTotalRow(xs).amounts, k)) + Val(Cell(CreateTotalRow(ys).amounts, k)))
  {
    TotalRowCells(xs + ys, k);
    TotalRowCells(xs, k);
    TotalRowCells(ys, k);
    SumOptByAppend(xs, ys, AmountOf(k));
  }

  /** Rows whose `total` column of a triple is the null-as-0 sum of its direct and subcontract columns. */
  predicate KeepsTotals(list: seq<MaterialRow>, p: Period, t: Triple)
  {
    forall i :: 0 <= i < |list| ==>
      Val(Cell(list[i].amounts, Amount(p, TotalOf(t))))
      == Val(Cell(list[i].amounts, Amount(p, DirectOf(t)))) + Val(Cell(list[i].amounts, Amount(p, SubcontractOf(t))))
  }

  lemma {:induction false} SumsKeepTotals(list: seq<MaterialRow>, p: Period, t: Triple)
    requires KeepsTotals(list, p, t)
    ensures SumOptBy(list, AmountOf(Amount(p, TotalOf(t))))
            == SumOptBy(list, AmountOf(Amount(p, DirectOf(t)))) + SumOptBy(list, AmountOf(Amount(p, SubcontractOf(t))))
    decreases |list|
  {
    if |list| > 0 {
      var init := list[..|list| - 1];
      assert KeepsTotals(init, p, t) by {
        forall i | 0 <= i < |init| ensures init[i] == list[i] { }
      }
      SumsKeepTotals(init, p, t);
    }
  }

  /**
   * The total row is consistent with itself: when every row's total column of a triple is the
   * sum of its direct and subcontract columns (nulls as 0), so is the total row's.
   */
  lemma TotalRowKeepsTotals(list: seq<MaterialRow>, p: Period, t: Triple)
    requires KeepsTotals(list, p, t)
    ensures KeepsTotals([CreateTotalRow(list)], p, t)
  {
    TotalRowCells(list, Amount(p, TotalOf(t)));
    TotalRowCells(list, Amount(p, DirectOf(t)));
    TotalRowCells(list, Amount(p, SubcontractOf(t)));
    SumsKeepTotals(list, p, t);
  }
}
