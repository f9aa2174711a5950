/**
 * The records the report formulas read.  Every boxed `Double` column of the Java entities is
 * nullable; a record is modelled as the columns it reads, with `None` (or a key absent from a
 * column map) standing for a database null.
 */
module Entities {
  import opened Wrappers

  /** The day of the week, as `java.time.DayOfWeek` gives it. */
  datatype DayOfWeek = Monday | Tuesday | Wednesday | Thursday | Friday | Saturday | Sunday

  /** The eight process categories and their descriptions (the `Category` enum). */
  datatype Category = SM | IM | DIP | MANUAL | PCB | CASE | ACCY | PACKING
  {
    function Description(): string
    {
      match this
      case SM => "SM ASSY"
      case IM => "IM ASSY"
      case DIP => "DIP ASSY"
      case MANUAL => "MANUAL ASSY"
      case PCB => "PCB ASSY"
      case CASE => "CASE ASSY"
      case ACCY => "ACCY"
      case PACKING => "PACKING ASSY"
    }
  }

  /** The nullable numeric columns of a process production report. */
  datatype ReportField =
    | AvailablePersonnel | AvailableManHours | StandardManHours | NonProductiveManHours
    | WorkloadManHours | StopManHours | ReworkManHours | ActualManHours | WorkingManHours
    | WorkEfficiency | ActualEfficiency | LossRate | ManHourInputRate | ManHourOperationRate
    | OverallManHourEfficiency | OvertimePersonnel | OvertimeManHours | AdditionalInputRate
    | FluxOnTime | FluxOperatingTime | FluxOperatingRate
    | TotalProductionMaterialCostSum | ProcessUsageSubMaterialSum | MaterialTotalSum
    | TotalProductionProcessingCostSum | ProcessInOutsourcingWorkSum | ProcessTotalSum
    | TotalProductionActualSum | DefectiveQuantity | DefectiveCost
    | StopAndNonproductiveHours | StopAndNonproductiveCost | ReworkHours | ReworkCost | TotalCost
    | EstimateCostTotal | ProcessTotalProductionInputAmount

  /** A process production report: its category and the columns that are not null. */
  datatype ProcessReport = ProcessReport(category: Option<string>, values: map<ReportField, real>)

  /** A nullable column of a row whose non-null columns are `values` (a report, an attendance row). */
  function Column<F>(values: map<F, real>, f: F): (v: Option<real>)
    ensures v.Some? <==> f in values
    ensures v.Some? ==> v.value == values[f]
  {
    if f in values then Some(values[f]) else None
  }

  /** A production performance status row (one lot of the day). */
  datatype PerformanceStatus = PerformanceStatus(
    productName: Option<string>,
    modelNo: Option<string>,
    specification: Option<string>,
    plannedQuantity: Option<real>,
    inputQuantity: Option<real>,
    defectiveQuantity: Option<real>,
    completedQuantity: Option<real>,
    materialCost: Option<real>,
    manHours: Option<real>,
    processingCost: Option<real>,
    subtotal: Option<real>,
    pricePerSet: Option<real>,
    totalProduction: Option<real>,
    performanceProcessingCost: Option<real>,
    totalPerformanceAmount: Option<real>)

  /** A work-loss record: its reason and the three nullable amounts the reports use. */
  datatype WorkLoss = WorkLoss(lossReason: string, lossWorker: Option<real>, lossTime: Option<real>, lossAmount: Option<real>)

  /**
   * A row of the MES daily production list.  The quantities arrive as text and are parsed by
   * `Double.parseDouble`; the model holds the parsed numbers.
   */
  datatype DailyRow = DailyRow(
    lotId: Option<string>,
    lotState: string,
    qty: real,
    inQty: real,
    outQty: real,
    defectQty: real,
    equipmentUseTime: Option<real>)

  /** A row of the MES lot-result list. */
  datatype LotResult = LotResult(
    lotId: Option<string>,
    lotState: string,
    qty: Option<real>,
    outQty: Option<real>,
    defectQty: Option<real>,
    standardTime: Option<real>)

  /** The ERP parts-list entry of an item. */
  datatype PartsList = PartsList(costRawMaterials: Option<real>, processingCost: Option<real>, estimatedUnitPrice: Option<real>)

  /** A QC work-report entry. */
  datatype QcReport = QcReport(passQuantityInspection: Option<real>, defectiveQuantityInspection: Option<real>)

  /** The nullable columns of a worker-retention (attendance) row. */
  datatype WorkerField =
    | ManagePerson | ProdPerson | AddWorkPerson | EtcPerson | WorkTime | RateTime | AddWorkTime
    | WkPercntHoli | WkPercntHoliTime | ProdPersonPartTime | ManagePersonPartTimeHour
    | WkPercntEarly | WkPercntEarlyTime | ManagePersonYearly | ManagePersonYearlyHour

  datatype WorkerRetention = WorkerRetention(values: map<WorkerField, real>)

  /** The estimated monthly expenses entered for the plant. */
  datatype EstimatedExpenses = EstimatedExpenses(
    overheadCost: Option<real>,
    generalManagementExpense: Option<real>,
    salesManagementExpense: Option<real>,
    depreciationCost: Option<real>,
    etc: Option<real>)
}
