/**
 * The rows of the purchase-and-receipt response: the daily material-cost row (orders, receipts
 * and pending orders for the day, the week and the month) and the stock-status row, with the
 * null-as-0 sum their merges use.
 */
module PurchaseResponse {
  import opened Wrappers
  import opened Sums
  import opened PurchaseFields

  /** `sum(a, b)`: either argument null counts as 0, and the sum is never null. */
  function SumNullable(a: Option<real>, b: Option<real>): (r: real)
    ensures a.None? && b.None? ==> r == 0.0
    ensures a.None? && b.Some? ==> r == b.value
    ensures a.Some? && b.None? ==> r == a.value
    ensures a.Some? && b.Some? ==> r == a.value + b.value
  {
    var x := if a.None? then 0.0 else a.value;
    var y := if b.None? then 0.0 else b.value;
    x + y
  }

  /** `replaceAll(",", "")`: the text with its thousands separators removed. */
  function StripCommas(s: string): (r: string)
    ensures ',' !in r
    ensures |r| <= |s|
    decreases |s|
  {
    if |s| == 0 then "" else StripCommas(s[..|s| - 1]) + (if s[|s| - 1] == ',' then "" else [s[|s| - 1]])
  }

  /** One direct/subcontract/total triple of nullable amounts. */
  datatype Columns = Columns(direct: Option<real>, subcontract: Option<real>, total: Option<real>)

  /** The order, receipt and pending-order triples of one period. */
  datatype PeriodAmounts = PeriodAmounts(orders: Columns, receipts: Columns, pending: Columns)

  /** The 27 amount columns of a daily material-cost row. */
  datatype MaterialAmounts = MaterialAmounts(daily: PeriodAmounts, weekly: PeriodAmounts, monthly: PeriodAmounts)

  const NullColumns := Columns(None, None, None)
  const NullPeriod := PeriodAmounts(NullColumns, NullColumns, NullColumns)
  const NullAmounts := MaterialAmounts(NullPeriod, NullPeriod, NullPeriod)

  function PeriodOf(a: MaterialAmounts, p: Period): PeriodAmounts
  {
    match p
    case Daily => a.daily
    case Weekly => a.weekly
    case Monthly => a.monthly
  }

  /** The column of one period that an amount kind names. */
  function PeriodCell(pa: PeriodAmounts, k: AmountKind): Option<real>
  {
    match k
    case DirectTransaction => pa.orders.direct
    case Subcontract => pa.orders.subcontract
    case TotalTransaction => pa.orders.total
    case DirectReceipt => pa.receipts.direct
    case SubcontractReceipt => pa.receipts.subcontract
    case TotalReceipt => pa.receipts.total
    case PendingDirect => pa.pending.direct
    case PendingSubcontract => pa.pending.subcontract
    case PendingTotal => pa.pending.total
  }

  /** The column an amount key names, e.g. `weeklySubcontractReceiptAmount` for Amount(Weekly, SubcontractReceipt). */
  function Cell(a: MaterialAmounts, k: AmountKey): Option<real>
  {
    PeriodCell(PeriodOf(a, k.period), k.kind)
  }

  predicate IsTotal(k: AmountKind)
  {
    k == TotalTransaction || k == TotalReceipt || k == PendingTotal
  }

  /** The triple a kind belongs to. */
  function TripleOf(k: AmountKind): (t: Triple)
    ensures k == DirectOf(t) || k == SubcontractOf(t) || k == TotalOf(t)
  {
    match k
    case DirectTransaction => Orders case Subcontract => Orders case TotalTransaction => Orders
    case DirectReceipt => Receipts case SubcontractReceipt => Receipts case TotalReceipt => Receipts
    case PendingDirect => Pending case PendingSubcontract => Pending case PendingTotal => Pending
  }

  /** A direct and a subcontract amount of the ERP purchase-order view (either may be null). */
  datatype OrderPair = OrderPair(direct: Option<real>, subcontract: Option<real>)
  datatype OrderPeriod = OrderPeriod(orders: OrderPair, receipts: OrderPair, pending: OrderPair)

  /** One row of the ERP purchase-order view: only daily and monthly amounts, and no totals. */
  datatype OrderAmounts = OrderAmounts(sortation: Option<string>, daily: OrderPeriod, monthly: OrderPeriod)

  /** The month's purchase plan: the sales plan is stored as text with thousands separators. */
  datatype PurchasePlan = PurchasePlan(salesPlanAmt: Option<string>, materialPurchasingPlanAmt: Option<real>)

  /** The order view's value for a direct or subcontract column, None for the columns it does not have. */
  function OrderCell(order: OrderAmounts, p: Period, k: AmountKind): Option<real>
  {
    if p == Weekly then None
    else
      var op := if p == Daily then order.daily else order.monthly;
      match k
      case DirectTransaction => op.orders.direct
      case Subcontract => op.orders.subcontract
      case DirectReceipt => op.receipts.direct
      case SubcontractReceipt => op.receipts.subcontract
      case PendingDirect => op.pending.direct
      case PendingSubcontract => op.pending.subcontract
      case _ => None
  }

  /**
   * The value a freshly built row holds in a column: weekly columns are not yet set, a direct or
   * subcontract column is the order view's value with null as 0, and a total column is the sum
   * of its direct and subcontract columns.
   */
  function ConstructedValue(order: OrderAmounts, a: AmountKey): Option<real>
  {
    if a.period == Weekly then None
    else if IsTotal(a.kind) then
      Some(Val(OrderCell(order, a.period, DirectOf(TripleOf(a.kind)))) + Val(OrderCell(order, a.period, SubcontractOf(TripleOf(a.kind)))))
    else Some(Val(OrderCell(order, a.period, a.kind)))
  }

  /** A triple whose total is the sum of its direct and subcontract amounts. */
  function WithTotal(direct: real, subcontract: real): Columns
  {
    Columns(Some(direct), Some(subcontract), Some(direct + subcontract))
  }

  /** The daily amounts of one kind in the order view, null as 0. */
  function DailyOf(k: AmountKind): OrderAmounts -> real
  {
    (o: OrderAmounts) => Val(OrderCell(o, Daily, k))
  }

  /**
   * The value of a column after `monthly(days)`. With a list of the week's earlier days, each
   * weekly direct or subcontract column is their daily values summed plus the row's own daily
   * value, and each weekly total is the weekly direct plus the weekly subcontract column. Without
   * a list the six weekly columns copy the daily ones and the weekly totals keep their value.
   * Daily and monthly columns are unchanged.
   */
  function WeeklyValue(a: MaterialAmounts, days: Option<seq<OrderAmounts>>, key: AmountKey): Option<real>
  {
    if key.period != Weekly then Cell(a, key)
    else if days.None? then
      (if IsTotal(key.kind) then Cell(a, key) else Cell(a, Amount(Daily, key.kind)))
    else if IsTotal(key.kind) then
      var t := TripleOf(key.kind);
      Some(SumBy(days.value, DailyOf(DirectOf(t))) + Val(Cell(a, Amount(Daily, DirectOf(t))))
           + (SumBy(days.value, DailyOf(SubcontractOf(t))) + Val(Cell(a, Amount(Daily, SubcontractOf(t))))))
    else Some(SumBy(days.value, DailyOf(key.kind)) + Val(Cell(a, Amount(Daily, key.kind))))
  }

  /** Column-wise null-as-0 sums of two triples, of two periods and of two rows. */
  function MergeColumns(a: Columns, b: Columns): Columns
  {
    Columns(Some(SumNullable(a.direct, b.direct)), Some(SumNullable(a.subcontract, b.subcontract)),
            Some(SumNullable(a.total, b.total)))
  }

  function MergePeriods(a: PeriodAmounts, b: PeriodAmounts): PeriodAmounts
  {
    PeriodAmounts(MergeColumns(a.orders, b.orders), MergeColumns(a.receipts, b.receipts), MergeColumns(a.pending, b.pending))
  }

  function MergeAmounts(a: MaterialAmounts, b: MaterialAmounts): MaterialAmounts
  {
    MaterialAmounts(MergePeriods(a.daily, b.daily), MergePeriods(a.weekly, b.weekly), MergePeriods(a.monthly, b.monthly))
  }

  /** The field values of a daily material-cost row. */
  datatype MaterialRow = MaterialRow(category: Option<string>, monthlySalesPlan: Option<real>,
                                     monthlyPurchasePlan: Option<real>, amounts: MaterialAmounts)

  /** A row of the daily material-cost table. */
  class DailyMaterialCost {
    var category: Option<string>
    var monthlySalesPlan: Option<real>
    var monthlyPurchasePlan: Option<real>
    var amounts: MaterialAmounts

    function Row(): MaterialRow
      reads this
    {
      MaterialRow(category, monthlySalesPlan, monthlyPurchasePlan, amounts)
    }

    function Get(k: AmountKey): Option<real>
      reads this
    {
      Cell(amounts, k)
    }

    /** The no-argument constructor: every field null. */
    constructor Empty()
      ensures Row() == MaterialRow(None, None, None, NullAmounts)
    {
      category := None;
      monthlySalesPlan := None;
      monthlyPurchasePlan := None;
      amounts := NullAmounts;
    }

    /**
     * A row built from the order view and the month's plan. `parseDouble` stands for Java's
     * `Double.parseDouble`, applied to the sales plan with its commas removed.
     */
    constructor (order: OrderAmounts, plan: PurchasePlan, parseDouble: string -> real)
      ensures category == Some(order.sortation.GetOr("데이터 없음"))
      ensures monthlySalesPlan == Some(parseDouble(StripCommas(plan.salesPlanAmt.GetOr("0"))))
      ensures monthlyPurchasePlan == Some(plan.materialPurchasingPlanAmt.GetOr(0.0))
      ensures forall k :: Get(k) == ConstructedValue(order, k)
    {
      category := Some(order.sortation.GetOr("데이터 없음"));
      monthlySalesPlan := Some(parseDouble(StripCommas(plan.salesPlanAmt.GetOr("0"))));
      monthlyPurchasePlan := Some(plan.materialPurchasingPlanAmt.GetOr(0.0));
      var d, m := order.daily, order.monthly;
      var daily := PeriodAmounts(WithTotal(Val(d.orders.direct), Val(d.orders.subcontract)),
                                 WithTotal(Val(d.receipts.direct), Val(d.receipts.subcontract)),
                                 WithTotal(Val(d.pending.direct), Val(d.pending.subcontract)));
      var monthly := PeriodAmounts(WithTotal(Val(m.orders.direct), Val(m.orders.subcontract)),
                                   WithTotal(Val(m.receipts.direct), Val(m.receipts.subcontract)),
                                   WithTotal(Val(m.pending.direct), Val(m.pending.subcontract)));
      amounts := MaterialAmounts(daily, NullPeriod, monthly);
      new;
      forall k ensures Get(k) == ConstructedValue(order, k) {
        match k.kind
        case DirectTransaction => case Subcontract => case TotalTransaction =>
        case DirectReceipt => case SubcontractReceipt => case TotalReceipt =>
        case PendingDirect => case PendingSubcontract => case PendingTotal =>
      }
    }

    /** `monthly(days)`: fills the weekly columns from the week's earlier days, or copies the daily ones. */
    method ComputeWeekly(days: Option<seq<OrderAmounts>>)
      modifies this
      ensures category == old(category) && monthlySalesPlan == old(monthlySalesPlan)
      ensures monthlyPurchasePlan == old(monthlyPurchasePlan)
      ensures forall k :: Get(k) == WeeklyValue(old(amounts), days, k)
    {
      var d, w := amounts.daily, amounts.weekly;
      var weekly;
      if days.Some? {
        var list := days.value;
        weekly := PeriodAmounts(
          WithTotal(SumBy(list, DailyOf(DirectTransaction)) + Val(d.orders.direct),
                    SumBy(list, DailyOf(Subcontract)) + Val(d.orders.subcontract)),
          WithTotal(SumBy(list, DailyOf(DirectReceipt)) + Val(d.receipts.direct),
                    SumBy(list, DailyOf(SubcontractReceipt)) + Val(d.receipts.subcontract)),
          WithTotal(SumBy(list, DailyOf(PendingDirect)) + Val(d.pending.direct),
                    SumBy(list, DailyOf(PendingSubcontract)) + Val(d.pending.subcontract)));
      } else {
        weekly := PeriodAmounts(Columns(d.orders.direct, d.orders.subcontract, w.orders.total),
                                Columns(d.receipts.direct, d.receipts.subcontract, w.receipts.total),
                                Columns(d.pending.direct, d.pending.subcontract, w.pending.total));
      }
      ghost var a := amounts;
      amounts := amounts.(weekly := weekly);
      forall k ensures Get(k) == WeeklyValue(a, days, k) {
        match k.kind
        case DirectTransaction => case Subcontract => case TotalTransaction =>
        case DirectReceipt => case SubcontractReceipt => case TotalReceipt =>
        case PendingDirect => case PendingSubcontract => case PendingTotal =>
      }
    }

    /**
     * `merge(source)`: every amount column becomes the null-as-0 sum of the two rows' columns.
     * The source row is given by its field values, which is all `merge` reads of it.
     */
    method Merge(source: MaterialRow)
      modifies this
      ensures Row() == old(Row()).(amounts := MergeAmounts(old(amounts), source.amounts))
    {
      amounts := MergeAmounts(amounts, source.amounts);
    }

    method SetCategory(c: Option<string>)
      modifies this
      ensures Row() == old(Row()).(category := c)
    {
      category := c;
    }
  }

  /**
   * `new DailyMaterialCostDTO(order, plan)` as the service calls it. The plan is the result of a
   * repository lookup and is `null` when no plan row exists; the constructor then dereferences it
   * and throws, which `None` stands for. Otherwise the row is the one the constructor builds.
   */
  method NewDailyMaterialCost(order: OrderAmounts, plan: Option<PurchasePlan>, parseDouble: string -> real)
    returns (r: Option<DailyMaterialCost>)
    ensures r.None? <==> plan.None?
    ensures r.Some? ==> fresh(r.value)
    ensures r.Some? ==> r.value.category == Some(order.sortation.GetOr("데이터 없음"))
    ensures r.Some? ==> r.value.monthlySalesPlan == Some(parseDouble(StripCommas(plan.value.salesPlanAmt.GetOr("0"))))
    ensures r.Some? ==> r.value.monthlyPurchasePlan == Some(plan.value.materialPurchasingPlanAmt.GetOr(0.0))
    ensures r.Some? ==> forall k :: r.value.Get(k) == ConstructedValue(order, k)
  {
    if plan.None? {
      return None;
    }
    var row := new DailyMaterialCost(order, plan.value, parseDouble);
    r := Some(row);
  }

  /** A row of the stock-status table. */
  datatype StockRow = StockRow(category: Option<string>, values: Columns)

  /** The stock-status column a field names. */
  function StockCell(c: Columns, f: StockField): Option<real>
  {
    match f
    case DirectPurchaseMaterial => c.direct
    case SubcontractMaterial => c.subcontract
    case TotalMaterial => c.total
  }

  class StockStatus {
    var category: Option<string>
    var values: Columns

    function Row(): StockRow
      reads this
    {
      StockRow(category, values)
    }

    constructor Empty()
      ensures Row() == StockRow(None, NullColumns)
    {
      category := None;
      values := NullColumns;
    }

    constructor (row: StockRow)
      ensures Row() == row
    {
      category := row.category;
      values := row.values;
    }

    /** `merge(statusDTO)`: the three columns become the null-as-0 sums; the category is kept. */
    method Merge(source: StockRow)
      modifies this
      ensures Row() == old(Row()).(values := MergeColumns(source.values, old(values)))
    {
      values := MergeColumns(source.values, values);
    }
  }

  // ---------------------------------------------------------------------------------------------
  // Properties

  /** The null-as-0 sum is commutative, has a null identity, and agrees with `Val`. */
  lemma SumNullableLaws(a: Option<real>, b: Option<real>)
    ensures SumNullable(a, b) == SumNullable(b, a)
    ensures SumNullable(a, None) == Val(a)
    ensures SumNullable(a, b) == Val(a) + Val(b)
  {
  }

  /** Removing commas keeps every other character. */
  lemma {:induction false} StripCommasKeepsOthers(s: string)
    ensures forall c :: c != ',' ==> multiset(StripCommas(s))[c] == multiset(s)[c]
    ensures ',' !in s ==> StripCommas(s) == s
    decreases |s|
  {
    if |s| > 0 {
      StripCommasKeepsOthers(s[..|s| - 1]);
      assert s == s[..|s| - 1] + [s[|s| - 1]];
    }
  }

  /** A constructed row's totals are direct + subcontract, daily and monthly, and its weekly columns are null. */
  lemma ConstructedTotals(order: OrderAmounts, p: Period, t: Triple)
    ensures p != Weekly ==>
              ConstructedValue(order, Amount(p, TotalOf(t))).Some? &&
              ConstructedValue(order, Amount(p, TotalOf(t))).value
              == ConstructedValue(order, Amount(p, DirectOf(t))).value + ConstructedValue(order, Amount(p, SubcontractOf(t))).value
    ensures p == Weekly ==> ConstructedValue(order, Amount(p, TotalOf(t))).None?
                            && ConstructedValue(order, Amount(p, DirectOf(t))).None?
  {
    match t case Orders => case Receipts => case Pending =>
  }

  /** A constructed row holds no null daily or monthly column: the nulls of the order view read as 0. */
  lemma ConstructedDefaults(order: OrderAmounts, k: AmountKind)
    ensures ConstructedValue(order, Amount(Daily, k)).Some? && ConstructedValue(order, Amount(Monthly, k)).Some?
    ensures !IsTotal(k) && OrderCell(order, Daily, k).None? ==> ConstructedValue(order, Amount(Daily, k)) == Some(0.0)
  {
  }

  /** With a list of days, each weekly total is weekly direct + weekly subcontract, and each is the week's sum plus today. */
  lemma WeeklyTotalsWithDays(a: MaterialAmounts, days: seq<OrderAmounts>, t: Triple)
    ensures WeeklyValue(a, Some(days), Amount(Weekly, TotalOf(t))).value
            == WeeklyValue(a, Some(days), Amount(Weekly, DirectOf(t))).value
               + WeeklyValue(a, Some(days), Amount(Weekly, SubcontractOf(t))).value
    ensures WeeklyValue(a, Some(days), Amount(Weekly, DirectOf(t)))
            == Some(SumBy(days, DailyOf(DirectOf(t))) + Val(Cell(a, Amount(Daily, DirectOf(t)))))
  {
    match t case Orders => case Receipts => case Pending =>
  }

  /** Without a list, the weekly direct and subcontract columns copy the daily ones and the weekly totals keep their value. */
  lemma WeeklyWithoutDays(a: MaterialAmounts, t: Triple)
    ensures WeeklyValue(a, None, Amount(Weekly, DirectOf(t))) == Cell(a, Amount(Daily, DirectOf(t)))
    ensures WeeklyValue(a, None, Amount(Weekly, SubcontractOf(t))) == Cell(a, Amount(Daily, SubcontractOf(t)))
    ensures WeeklyValue(a, None, Amount(Weekly, TotalOf(t))) == Cell(a, Amount(Weekly, TotalOf(t)))
  {
    match t case Orders => case Receipts => case Pending =>
  }

  /**
   * A freshly built row given no list of days keeps null weekly totals, although its weekly
   * direct and subcontract columns are set.
   */
  lemma FreshRowWithoutDaysHasNullWeeklyTotals(order: OrderAmounts, a: MaterialAmounts, t: Triple)
    requires forall k :: Cell(a, k) == ConstructedValue(order, k)
    ensures WeeklyValue(a, None, Amount(Weekly, TotalOf(t))).None?
    ensures WeeklyValue(a, None, Amount(Weekly, DirectOf(t))).Some?
  {
    assert Cell(a, Amount(Weekly, TotalOf(t))) == ConstructedValue(order, Amount(Weekly, TotalOf(t)));
    assert Cell(a, Amount(Daily, DirectOf(t))) == ConstructedValue(order, Amount(Daily, DirectOf(t)));
    match t case Orders => case Receipts => case Pending =>
  }

  /** The daily and monthly columns are untouched by `monthly`. */
  lemma MonthlyKeepsOtherPeriods(a: MaterialAmounts, days: Option<seq<OrderAmounts>>, k: AmountKey)
    requires k.period != Weekly
    ensures WeeklyValue(a, days, k) == Cell(a, k)
  {
  }

  lemma MergePeriodsCell(x: PeriodAmounts, y: PeriodAmounts, k: AmountKind)
    ensures PeriodCell(MergePeriods(x, y), k) == Some(Val(PeriodCell(x, k)) + Val(PeriodCell(y, k)))
  {
    SumNullableLaws(PeriodCell(x, k), PeriodCell(y, k));
    match k
    case DirectTransaction => case Subcontract => case TotalTransaction =>
    case DirectReceipt => case SubcontractReceipt => case TotalReceipt =>
    case PendingDirect => case PendingSubcontract => case PendingTotal =>
  }

  /** Merging two rows sets every column, to the null-as-0 sum of the two rows' values. */
  lemma MergeAmountsCell(a: MaterialAmounts, b: MaterialAmounts, k: AmountKey)
    ensures Cell(MergeAmounts(a, b), k) == Some(Val(Cell(a, k)) + Val(Cell(b, k)))
  {
    assert PeriodOf(MergeAmounts(a, b), k.period) == MergePeriods(PeriodOf(a, k.period), PeriodOf(b, k.period));
    MergePeriodsCell(PeriodOf(a, k.period), PeriodOf(b, k.period), k.kind);
  }

  /** "Total = direct + subcontract" in a period: what the constructor establishes for a triple. */
  predicate TotalsAdd(a: MaterialAmounts, p: Period, t: Triple)
  {
    Val(Cell(a, Amount(p, TotalOf(t)))) == Val(Cell(a, Amount(p, DirectOf(t)))) + Val(Cell(a, Amount(p, SubcontractOf(t))))
  }

  /** Merged rows keep "total = direct + subcontract" when both rows satisfy it. */
  lemma MergeKeepsTotals(a: MaterialAmounts, b: MaterialAmounts, p: Period, t: Triple)
    requires TotalsAdd(a, p, t) && TotalsAdd(b, p, t)
    ensures TotalsAdd(MergeAmounts(a, b), p, t)
  {
    MergeAmountsCell(a, b, Amount(p, TotalOf(t)));
    MergeAmountsCell(a, b, Amount(p, DirectOf(t)));
    MergeAmountsCell(a, b, Amount(p, SubcontractOf(t)));
  }

  /** The merge of stock rows sets each of the three columns to the null-as-0 sum. */
  lemma MergeColumnsAdds(a: Columns, b: Columns, f: StockField)
    ensures StockCell(MergeColumns(a, b), f) == Some(Val(StockCell(a, f)) + Val(StockCell(b, f)))
  {
    SumNullableLaws(StockCell(a, f), StockCell(b, f));
  }
}
