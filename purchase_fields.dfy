/**
 * The numeric columns of the purchase-and-receipt report, shared by the backend DTOs and the
 * front end's total rows (both sides use the same JSON field names).
 */
module PurchaseFields {

  /** Reporting period of an amount column. */
  datatype Period = Daily | Weekly | Monthly

  /** What an amount column measures: orders, receipts and pending orders, each direct/subcontract/total. */
  datatype AmountKind =
    | DirectTransaction | Subcontract | TotalTransaction
    | DirectReceipt | SubcontractReceipt | TotalReceipt
    | PendingDirect | PendingSubcontract | PendingTotal

  /** One of the 27 amount columns, e.g. `weeklySubcontractReceiptAmount` is Amount(Weekly, SubcontractReceipt). */
  datatype AmountKey = Amount(period: Period, kind: AmountKind)

  const Periods: set<Period> := {Daily, Weekly, Monthly}
  const Kinds: set<AmountKind> := {DirectTransaction, Subcontract, TotalTransaction,
                                   DirectReceipt, SubcontractReceipt, TotalReceipt,
                                   PendingDirect, PendingSubcontract, PendingTotal}

  /** All 27 amount columns. */
  function AllAmounts(): set<AmountKey>
  {
    set p, k | p in Periods && k in Kinds :: Amount(p, k)
  }

  lemma AllAmountsComplete(a: AmountKey)
    ensures a in AllAmounts()
  {
    assert a.period in Periods by { match a.period case Daily => case Weekly => case Monthly => }
    assert a.kind in Kinds by {
      match a.kind
      case DirectTransaction => case Subcontract => case TotalTransaction =>
      case DirectReceipt => case SubcontractReceipt => case TotalReceipt =>
      case PendingDirect => case PendingSubcontract => case PendingTotal =>
    }
  }

  /** The three (direct, subcontract, total) triples: orders, receipts and pending orders. */
  datatype Triple = Orders | Receipts | Pending

  function DirectOf(t: Triple): AmountKind
  {
    match t
    case Orders => DirectTransaction
    case Receipts => DirectReceipt
    case Pending => PendingDirect
  }

  function SubcontractOf(t: Triple): AmountKind
  {
    match t
    case Orders => Subcontract
    case Receipts => SubcontractReceipt
    case Pending => PendingSubcontract
  }

  function TotalOf(t: Triple): AmountKind
  {
    match t
    case Orders => TotalTransaction
    case Receipts => TotalReceipt
    case Pending => PendingTotal
  }

  /** Columns of the stock-status table. */
  datatype StockField = DirectPurchaseMaterial | SubcontractMaterial | TotalMaterial

  const AllStockFields: set<StockField> := {DirectPurchaseMaterial, SubcontractMaterial, TotalMaterial}

  /** Columns of the model purchase-plan table (`salesPlanMonthly` ... on the front end). */
  datatype PlanField = SalesPlanMonthly | MaterialCostRatio | PurchasePlanMonthly | OrderAmountMonthly

  const AllPlanFields: set<PlanField> := {SalesPlanMonthly, MaterialCostRatio, PurchasePlanMonthly, OrderAmountMonthly}

  /** Columns of the model receipt-status table. */
  datatype ReceiptField = DirectPurchaseReceipt | SubcontractReceiptAmount | TotalMaterialReceipt | ReceiptRatioMonthly

  const AllReceiptFields: set<ReceiptField> :=
    {DirectPurchaseReceipt, SubcontractReceiptAmount, TotalMaterialReceipt, ReceiptRatioMonthly}

  /** Material groups and stock states of the warehouse table: `wiringWaiting` is Warehouse(Wiring, Waiting). */
  datatype MaterialGroup = Wiring | Mechanism | Packing | SubMaterials | Other
  datatype StockState = Waiting | InProcess | StateTotal
  datatype WarehouseField = Warehouse(group: MaterialGroup, state: StockState)

  const Groups: set<MaterialGroup> := {Wiring, Mechanism, Packing, SubMaterials, Other}
  const States: set<StockState> := {Waiting, InProcess, StateTotal}

  /** All 15 warehouse columns. */
  function AllWarehouseFields(): set<WarehouseField>
  {
    set g, s | g in Groups && s in States :: Warehouse(g, s)
  }

  lemma AllWarehouseFieldsComplete(w: WarehouseField)
    ensures w in AllWarehouseFields()
  {
    assert w.group in Groups by {
      match w.group case Wiring => case Mechanism => case Packing => case SubMaterials => case Other =>
    }
    assert w.state in States by { match w.state case Waiting => case InProcess => case StateTotal => }
  }
}
