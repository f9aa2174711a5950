/**
 * The process daily-report Excel export (service/ExcelServiceImplProcess.java): the signature
 * cells chosen by assembly category, the numbered production rows and their total row with
 * guarded rates, and the man-input, cost, technical-problem and stop-risk rows below them.
 */
module ExcelProcessReport {
  import opened Wrappers
  import opened Sums
  import opened Rates
  import opened ExcelCells
  import RT = ReportTotals

  /** A production row of the report, with its seventeen numeric columns. */
  datatype ProductionLine = ProductionLine(
    lotNo: Option<string>, productName: Option<string>, modelNo: Option<string>,
    specification: Option<string>, unit: Option<string>,
    plannedQuantity: real, inputQuantity: real, defectiveQuantity: real, defectRate: real,
    completedQuantity: real, achievementRate: real, workInProgressQuantity: real,
    materialCost: real, manHours: real, processingCost: real, subtotal: real, pricePerSet: real,
    totalProduction: real, performanceMaterialCost: real, performanceProcessingCost: real,
    totalPerformanceAmount: real, monthlyCumulativeProduction: real)

  function Quantity(p: ProductionLine, f: RT.ProductionField): real
  {
    match f
    case PlannedQuantity => p.plannedQuantity
    case InputQuantity => p.inputQuantity
    case DefectiveQuantity => p.defectiveQuantity
    case DefectRate => p.defectRate
    case CompletedQuantity => p.completedQuantity
    case AchievementRate => p.achievementRate
    case WorkInProgressQuantity => p.workInProgressQuantity
    case MaterialCost => p.materialCost
    case ManHours => p.manHours
    case ProcessingCost => p.processingCost
    case Subtotal => p.subtotal
    case PricePerSet => p.pricePerSet
    case TotalProduction => p.totalProduction
    case PerformanceMaterialCost => p.performanceMaterialCost
    case PerformanceProcessingCost => p.performanceProcessingCost
    case TotalPerformanceAmount => p.totalPerformanceAmount
    case MonthlyCumulativeProduction => p.monthlyCumulativeProduction
  }

  function QuantityOf(f: RT.ProductionField): ProductionLine -> real
  {
    (p: ProductionLine) => Quantity(p, f)
  }

  /** The plain sum of one column. */
  function ColumnTotal(list: seq<ProductionLine>, f: RT.ProductionField): real
  {
    SumBy(list, QuantityOf(f))
  }

  /** `planned > 0 ? part / planned * 100 : 0`. */
  function PositivePercent(part: real, planned: real): (r: real)
  {
    if planned > 0.0 then Percent(part, planned) else 0.0
  }

  /**
   * `sumData`: each column summed, except the two rates, which are recomputed from the summed
   * defective, completed and planned quantities.
   */
  function TotalValue(list: seq<ProductionLine>, f: RT.ProductionField): real
  {
    var planned := ColumnTotal(list, RT.PlannedQuantity);
    if f == RT.DefectRate then PositivePercent(ColumnTotal(list, RT.DefectiveQuantity), planned)
    else if f == RT.AchievementRate then PositivePercent(ColumnTotal(list, RT.CompletedQuantity), planned)
    else ColumnTotal(list, f)
  }

  const FirstRow: int := 10

  /**
   * A row the export writes, with its sheet row index.  The total row stands for the totals of
   * the production rows it carries: its cell for field `f` is `TotalValue(lines, f)`.
   */
  datatype SheetRow<M, C, L> =
    | ProductionRow(index: int, no: int, line: ProductionLine)
    | TotalRow(index: int, lines: seq<ProductionLine>)
    | ManInputRow(index: int, manInput: M)
    | CostRow(index: int, cost: C)
    | TechRow(index: int, no: int, problem: L)
    | StopRow(index: int, no: int, risk: L)

  function SheetLength(n: nat, t: nat, s: nat): nat { n + 3 + t + s }

  /**
   * Row `i` of the sheet `addData` writes: production rows from row 10, numbered from 1; the
   * total row right below; the man-input row 6 rows further; the cost row 6 rows below that;
   * the technical problems 7 rows further and the stop risks 6 rows after the last problem,
   * all of these numbered n + 1.
   */
  function Row<M, C, L>(production: seq<ProductionLine>, manInput: M, cost: C, tech: seq<L>, stop: seq<L>, i: nat)
    : SheetRow<M, C, L>
    requires i < SheetLength(|production|, |tech|, |stop|)
  {
    var n := |production|;
    var t := |tech|;
    if i < n then ProductionRow(FirstRow + i, i + 1, production[i])
    else if i == n then TotalRow(FirstRow + n, production)
    else if i == n + 1 then ManInputRow(FirstRow + n + 6, manInput)
    else if i == n + 2 then CostRow(FirstRow + n + 12, cost)
    else if i < n + 3 + t then TechRow(FirstRow + n + 19 + (i - n - 3), n + 1, tech[i - n - 3])
    else StopRow(FirstRow + n + 25 + t + (i - n - 3 - t), n + 1, stop[i - n - 3 - t])
  }

  function ProcessSheet<M, C, L>(production: seq<ProductionLine>, manInput: M, cost: C, tech: seq<L>, stop: seq<L>)
    : (r: seq<SheetRow<M, C, L>>)
    ensures |r| == SheetLength(|production|, |tech|, |stop|)
  {
    seq(SheetLength(|production|, |tech|, |stop|),
        i requires 0 <= i < SheetLength(|production|, |tech|, |stop|) => Row(production, manInput, cost, tech, stop, i))
  }

  /**
   * `addData`.  It reads the first man-input and the first cost element; without one it throws
   * (`None`).
   */
  method AddData<M(==), C(==), L(==)>(production: seq<ProductionLine>, manInput: seq<M>, cost: seq<C>, tech: seq<L>, stop: seq<L>)
    returns (rows: Option<seq<SheetRow<M, C, L>>>)
    ensures |manInput| == 0 || |cost| == 0 ==> rows.None?
    ensures |manInput| > 0 && |cost| > 0 ==> rows == Some(ProcessSheet(production, manInput[0], cost[0], tech, stop))
  {
    if |manInput| == 0 || |cost| == 0 {
      // the production rows and the total row are written before `get(0)` throws
      return None;
    }
    ghost var sheet := ProcessSheet(production, manInput[0], cost[0], tech, stop);
    var n := |production|;
    var rowIndex := FirstRow;
    var no := 1;
    var out: seq<SheetRow<M, C, L>> := [];
    for i := 0 to n
      invariant rowIndex == FirstRow + i && no == i + 1
      invariant out == sheet[..i]
    {
      out := out + [ProductionRow(rowIndex, no, production[i])];
      rowIndex := rowIndex + 1;
      no := no + 1;
    }
    out := out + [TotalRow(rowIndex, production)];
    rowIndex := rowIndex + 6;
    out := out + [ManInputRow(rowIndex, manInput[0])];
    rowIndex := rowIndex + 1;
    rowIndex := rowIndex + 5;
    out := out + [CostRow(rowIndex, cost[0])];
    rowIndex := rowIndex + 1;
    rowIndex := rowIndex + 6;
    assert out == sheet[..n + 3];
    for i := 0 to |tech|
      invariant rowIndex == FirstRow + n + 19 + i
      invariant out == sheet[..n + 3 + i]
    {
      out := out + [TechRow(rowIndex, no, tech[i])];
      rowIndex := rowIndex + 1;
    }
    rowIndex := rowIndex + 6;
    for i := 0 to |stop|
      invariant rowIndex == FirstRow + n + 25 + |tech| + i
      invariant out == sheet[..n + 3 + |tech| + i]
    {
      out := out + [StopRow(rowIndex, no, stop[i])];
      rowIndex := rowIndex + 1;
    }
    assert out == sheet;
    rows := Some(out);
  }

  /** The signature pair `provideExcelData` uses for a category; `None` for any other category. */
  function SignatureFor(info: StandardInfo, category: string): Option<Signature>
  {
    match category
    case "ACCY" => Some(info.accy)
    case "CASE ASSY" => Some(info.caseAssy)
    case "DIP ASSY" => Some(info.dip)
    case "IM ASSY" => Some(info.im)
    case "MANUAL ASSY" => Some(info.manual)
    case "PACKING ASSY" => Some(info.packing)
    case "PCB ASSY" => Some(info.pcb)
    case "SM ASSY" => Some(info.sm)
    case _ => None
  }

  const WriterPrefix: string := "◆ 작 성 자  : "

  /** The `addData` calls of `provideExcelData` for a category; the manual line uses "a5". */
  function HeaderPuts(info: StandardInfo, category: string): seq<Put>
  {
    match SignatureFor(info, category)
    case None => []
    case Some(sg) =>
      [Put("A4", Some(Concat(DepartmentPrefix, sg.department))),
       Put(if category == "MANUAL ASSY" then "a5" else "A5", Some(Concat(WriterPrefix, sg.writer)))]
  }

  /** `provideExcelData`: null without a standard information record. */
  method ProvideExcelData(category: string, info: Option<StandardInfo>) returns (data: ExcelData?)
    ensures info.None? ==> data == null
    ensures info.Some? ==> data != null && fresh(data) && data.cellData == Cells(HeaderPuts(info.value, category))
  {
    if info.None? {
      return null;
    }
    data := new ExcelData();
    var puts := HeaderPuts(info.value, category);
    if |puts| == 2 {
      data.AddData(puts[0].address, puts[0].value);
      data.AddData(puts[1].address, puts[1].value);
      TwoPuts(puts);
    }
  }

  // ---------------------------------------------------------------------------------------------
  // Properties

  /**
   * A category without a signature pair writes no cell; the manual category writes "A4" and the
   * lower-case "a5"; the six other known categories write "A4" and "A5".
   */
  lemma HeaderCells(info: StandardInfo, category: string)
    ensures SignatureFor(info, category).None? ==> Cells(HeaderPuts(info, category)) == map[]
    ensures category == "MANUAL ASSY" ==> Cells(HeaderPuts(info, category)).Keys == {"A4", "a5"}
    ensures SignatureFor(info, category).Some? && category != "MANUAL ASSY" ==>
              Cells(HeaderPuts(info, category)).Keys == {"A4", "A5"}
  {
    if SignatureFor(info, category).Some? {
      TwoPuts(HeaderPuts(info, category));
    }
  }

  /** The categories with a signature pair are exactly the eight assembly categories. */
  lemma SignatureCategories(info: StandardInfo, category: string)
    ensures SignatureFor(info, category).Some? <==>
              category in {"ACCY", "CASE ASSY", "DIP ASSY", "IM ASSY", "MANUAL ASSY", "PACKING ASSY", "PCB ASSY", "SM ASSY"}
  {
  }

  /**
   * The two rates of the total row are 0 unless the planned total is positive, and otherwise
   * the summed defective (completed) quantity as a percentage of the summed plan.
   */
  lemma TotalRates(list: seq<ProductionLine>)
    ensures var planned := ColumnTotal(list, RT.PlannedQuantity);
            planned <= 0.0 ==> TotalValue(list, RT.DefectRate) == 0.0 && TotalValue(list, RT.AchievementRate) == 0.0
    ensures var planned := ColumnTotal(list, RT.PlannedQuantity);
            planned > 0.0 ==>
              TotalValue(list, RT.DefectRate) * planned == ColumnTotal(list, RT.DefectiveQuantity) * 100.0
              && TotalValue(list, RT.AchievementRate) * planned == ColumnTotal(list, RT.CompletedQuantity) * 100.0
  {
  }

  /** Every other column of the total row is the plain column sum. */
  lemma TotalSums(list: seq<ProductionLine>, f: RT.ProductionField)
    requires f != RT.DefectRate && f != RT.AchievementRate
    ensures TotalValue(list, f) == ColumnTotal(list, f)
  {
  }

  /** Column sums add up over a split of the production rows. */
  lemma ColumnTotalAppend(a: seq<ProductionLine>, b: seq<ProductionLine>, f: RT.ProductionField)
    ensures ColumnTotal(a + b, f) == ColumnTotal(a, f) + ColumnTotal(b, f)
  {
    SumByAppend(a, b, QuantityOf(f));
  }

  /**
   * Production rows are numbered 1 .. n on rows 10 .. 9 + n, and every technical-problem and
   * stop-risk row carries the same number n + 1.
   */
  lemma SheetNumbering<M, C, L>(production: seq<ProductionLine>, m: M, c: C, tech: seq<L>, stop: seq<L>, k: nat)
    requires k < |ProcessSheet(production, m, c, tech, stop)|
    ensures var r := ProcessSheet(production, m, c, tech, stop)[k];
            (k < |production| ==> r == ProductionRow(FirstRow + k, k + 1, production[k]))
            && (r.TechRow? || r.StopRow? ==> r.no == |production| + 1)
            && (r.ProductionRow? ==> 1 <= r.no <= |production|)
  {
  }

  /** The rows are written to strictly increasing indices, so no row replaces another. */
  lemma SheetIncreasing<M, C, L>(production: seq<ProductionLine>, m: M, c: C, tech: seq<L>, stop: seq<L>, i: nat, j: nat)
    requires i < j < |ProcessSheet(production, m, c, tech, stop)|
    ensures ProcessSheet(production, m, c, tech, stop)[i].index < ProcessSheet(production, m, c, tech, stop)[j].index
  {
  }
}
