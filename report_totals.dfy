/**
 * The "합계" (total) rows the front end appends to its report tables, and the shape check on
 * a JWT before its payload is decoded (components/tools/utils.tsx).  A table row is modelled
 * as a map from column to number; a column the row lacks (null or undefined) reads as 0,
 * which is what both `x || 0` and `x != null ? x : 0` give for a number.
 */
module ReportTotals {
  import opened Wrappers
  import opened Strings
  import opened PurchaseFields

  /** One cell of a row, a missing value read as 0. */
  function Cell<K>(row: map<K, real>, k: K): real
  {
    if k in row then row[k] else 0.0
  }

  /** Reference definition of a column total: the sum of the column's cells over the rows. */
  function ColumnSum<K>(rows: seq<map<K, real>>, k: K): real
    decreases |rows|
  {
    if |rows| == 0 then 0.0 else ColumnSum(rows[..|rows| - 1], k) + Cell(rows[|rows| - 1], k)
  }

  /** Column totals are additive over a split of the rows. */
  lemma {:induction false} ColumnSumAppend<K>(a: seq<map<K, real>>, b: seq<map<K, real>>, k: K)
    ensures ColumnSum(a + b, k) == ColumnSum(a, k) + ColumnSum(b, k)
    decreases |b|
  {
    if |b| == 0 {
      assert a + b == a;
    } else {
      assert (a + b)[..|a + b| - 1] == a + b[..|b| - 1];
      ColumnSumAppend(a, b[..|b| - 1], k);
    }
  }

  /**
   * The forEach loop shared by every total: start each column at 0 and, row by row, add the
   * row's cell to it.
   */
  method SumColumns<K>(rows: seq<map<K, real>>, keys: set<K>) returns (totals: map<K, real>)
    ensures totals.Keys == keys
    ensures forall k :: k in keys ==> totals[k] == ColumnSum(rows, k)
  {
    totals := map k | k in keys :: 0.0;
    var i := 0;
    while i < |rows|
      invariant 0 <= i <= |rows|
      invariant totals.Keys == keys
      invariant forall k :: k in keys ==> totals[k] == ColumnSum(rows[..i], k)
    {
      var row := rows[i];
      var todo := keys;
      while todo != {}
        invariant todo <= keys && totals.Keys == keys
        invariant forall k :: k in keys ==>
          totals[k] == ColumnSum(rows[..i], k) + (if k in todo then 0.0 else Cell(row, k))
        decreases |todo|
      {
        var k :| k in todo;
        totals := totals[k := totals[k] + Cell(row, k)];
        todo := todo - {k};
      }
      assert rows[..i + 1][..i] == rows[..i];
      i := i + 1;
    }
    assert rows[..|rows|] == rows;
  }

  /** `totals.k /= d`: one column divided, the others unchanged. */
  method DivideColumn<K>(totals: map<K, real>, k: K, d: real) returns (r: map<K, real>)
    requires k in totals && d > 0.0
    ensures r.Keys == totals.Keys
    ensures r[k] == totals[k] / d
    ensures forall j :: j in totals && j != k ==> r[j] == totals[j]
  {
    r := totals[k := totals[k] / d];
  }

  /** A total row: the heading cell ("합계") and one number per summed column. */
  datatype Totals<K> = Totals(heading: string, values: map<K, real>)

  // --- calculateProductionDataTotals -----------------------------------------------------

  datatype ProductionField =
    | PlannedQuantity | InputQuantity | DefectiveQuantity | DefectRate | CompletedQuantity
    | AchievementRate | WorkInProgressQuantity | MaterialCost | ManHours | ProcessingCost
    | Subtotal | PricePerSet | TotalProduction | PerformanceMaterialCost
    | PerformanceProcessingCost | TotalPerformanceAmount | MonthlyCumulativeProduction

  const ProductionFields: set<ProductionField> := {
    PlannedQuantity, InputQuantity, DefectiveQuantity, DefectRate, CompletedQuantity,
    AchievementRate, WorkInProgressQuantity, MaterialCost, ManHours, ProcessingCost,
    Subtotal, PricePerSet, TotalProduction, PerformanceMaterialCost,
    PerformanceProcessingCost, TotalPerformanceAmount, MonthlyCumulativeProduction}

  /** `data.length || 1`. */
  function RowDivisor(n: nat): (r: nat)
    ensures r >= 1 && (n >= 1 ==> r == n)
  {
    if n == 0 then 1 else n
  }

  /**
   * calculateProductionDataTotals: lotNo "합계", every column summed, and the two rates
   * averaged over the rows (divided by the row count, or by 1 for no rows).
   */
  method CalculateProductionDataTotals(data: seq<map<ProductionField, real>>) returns (totals: Totals<ProductionField>)
    ensures totals.heading == "합계"
    ensures totals.values.Keys == ProductionFields
    ensures forall k :: k in ProductionFields && k != AchievementRate && k != DefectRate ==>
      totals.values[k] == ColumnSum(data, k)
    ensures totals.values[AchievementRate] == ColumnSum(data, AchievementRate) / RowDivisor(|data|) as real
    ensures totals.values[DefectRate] == ColumnSum(data, DefectRate) / RowDivisor(|data|) as real
    ensures |data| == 0 ==> forall k :: k in ProductionFields ==> totals.values[k] == 0.0
  {
    var values := SumColumnsAveraging(data, ProductionFields, AchievementRate, DefectRate);
    totals := Totals("합계", values);
  }

  /** Column sums of `keys`, with the two columns `a` and `b` then divided by `RowDivisor(|rows|)`. */
  method SumColumnsAveraging<K>(rows: seq<map<K, real>>, keys: set<K>, a: K, b: K) returns (values: map<K, real>)
    requires a in keys && b in keys && a != b
    ensures values.Keys == keys
    ensures forall k :: k in keys && k != a && k != b ==> values[k] == ColumnSum(rows, k)
    ensures values[a] == ColumnSum(rows, a) / RowDivisor(|rows|) as real
    ensures values[b] == ColumnSum(rows, b) / RowDivisor(|rows|) as real
    ensures |rows| == 0 ==> forall k :: k in keys ==> values[k] == 0.0
  {
    var sums := SumColumns(rows, keys);
    var totalRows := if |rows| == 0 then 1 else |rows|;
    assert totalRows == RowDivisor(|rows|);
    var once := DivideColumn(sums, a, totalRows as real);
    values := DivideColumn(once, b, totalRows as real);
  }

  // --- caluMaterialCostData --------------------------------------------------------------

  /** One row of the daily material-cost table as the front end receives it. */
  datatype MaterialCostRow = MaterialCostRow(amounts: map<AmountKey, real>,
                                             monthlySalesPlan: Option<real>,
                                             monthlyPurchasePlan: Option<real>)

  /** The material-cost total: amounts summed, the two plan figures taken from the first row. */
  datatype MaterialCostTotals = MaterialCostTotals(category: string, monthlySalesPlan: real,
                                                   monthlyPurchasePlan: real, amounts: map<AmountKey, real>)

  function AmountRows(data: seq<MaterialCostRow>): (r: seq<map<AmountKey, real>>)
    ensures |r| == |data| && forall i :: 0 <= i < |data| ==> r[i] == data[i].amounts
  {
    seq(|data|, i requires 0 <= i < |data| => data[i].amounts)
  }

  function Or0(x: Option<real>): real
  {
    if x.Some? then x.value else 0.0
  }

  /**
   * caluMaterialCostData: every amount column summed; monthlySalesPlan and monthlyPurchasePlan
   * are read from row 0 only, so an empty table fails (None models the TypeError).
   */
  method CaluMaterialCostData(data: seq<MaterialCostRow>) returns (r: Option<MaterialCostTotals>)
    ensures r.None? <==> |data| == 0
    ensures r.Some? ==> r.value.category == "합계"
    ensures r.Some? ==> r.value.monthlySalesPlan == Or0(data[0].monthlySalesPlan)
    ensures r.Some? ==> r.value.monthlyPurchasePlan == Or0(data[0].monthlyPurchasePlan)
    ensures r.Some? ==> r.value.amounts.Keys == AllAmounts()
    ensures r.Some? ==> forall k :: k in AllAmounts() ==> r.value.amounts[k] == ColumnSum(AmountRows(data), k)
  {
    var sums := SumColumns(AmountRows(data), AllAmounts());
    if |data| == 0 {
      return None;
    }
    r := Some(MaterialCostTotals("합계", 0.0 + Or0(data[0].monthlySalesPlan),
                                 0.0 + Or0(data[0].monthlyPurchasePlan), sums));
  }

  // --- caluStockStatusData, caluModelPurchasePlanData, caluModelReceiptStatusData,
  //     caluWarehouseMaterialStatusData -----------------------------------------------------

  /** caluStockStatusData: each of the three stock columns summed. */
  method CaluStockStatusData(data: seq<map<StockField, real>>) returns (totals: Totals<StockField>)
    ensures totals.heading == "합계" && totals.values.Keys == AllStockFields
    ensures forall k :: k in AllStockFields ==> totals.values[k] == ColumnSum(data, k)
  {
    var sums := SumColumns(data, AllStockFields);
    totals := Totals("합계", sums);
  }

  /** caluModelPurchasePlanData: a null table gives an all-zero row, otherwise column sums. */
  method CaluModelPurchasePlanData(data: Option<seq<map<PlanField, real>>>) returns (totals: Totals<PlanField>)
    ensures totals.heading == "합계" && totals.values.Keys == AllPlanFields
    ensures data.None? ==> forall k :: k in AllPlanFields ==> totals.values[k] == 0.0
    ensures data.Some? ==> forall k :: k in AllPlanFields ==> totals.values[k] == ColumnSum(data.value, k)
  {
    var rows := if data.Some? then data.value else [];
    var sums := SumColumns(rows, AllPlanFields);
    totals := Totals("합계", sums);
  }

  /** caluModelReceiptStatusData: a null table gives an all-zero row, otherwise column sums. */
  method CaluModelReceiptStatusData(data: Option<seq<map<ReceiptField, real>>>) returns (totals: Totals<ReceiptField>)
    ensures totals.heading == "합계" && totals.values.Keys == AllReceiptFields
    ensures data.None? ==> forall k :: k in AllReceiptFields ==> totals.values[k] == 0.0
    ensures data.Some? ==> forall k :: k in AllReceiptFields ==> totals.values[k] == ColumnSum(data.value, k)
  {
    var rows := if data.Some? then data.value else [];
    var sums := SumColumns(rows, AllReceiptFields);
    totals := Totals("합계", sums);
  }

  /** caluWarehouseMaterialStatusData: each of the fifteen warehouse columns summed. */
  method CaluWarehouseMaterialStatusData(data: seq<map<WarehouseField, real>>) returns (totals: Totals<WarehouseField>)
    ensures totals.heading == "합계" && totals.values.Keys == AllWarehouseFields()
    ensures forall k :: k in AllWarehouseFields() ==> totals.values[k] == ColumnSum(data, k)
  {
    var sums := SumColumns(data, AllWarehouseFields());
    totals := Totals("합계", sums);
  }

  // --- parseJWT ----------------------------------------------------------------------------

  /** The three dot-separated parts of a JWT, before base64 and JSON decoding. */
  datatype JwtParts = JwtParts(header: string, payload: string, signature: string)

  /**
   * parseJWT up to the decoding: a null or empty token gives null (Success(None)); a token
   * that does not split into exactly three parts on "." throws (Failure).
   */
  function ParseJwt(token: Option<string>): (r: Result<Option<JwtParts>, string>)
    ensures (token.None? || token.value == "") ==> r == Success(None)
    ensures token.Some? && token.value != "" && Count(token.value, '.') != 2 ==> r == Failure("Invalid JWT token")
    ensures token.Some? && token.value != "" && Count(token.value, '.') == 2 ==>
      r.Success? && r.value.Some? &&
      r.value.value.header + "." + r.value.value.payload + "." + r.value.value.signature == token.value &&
      '.' !in r.value.value.header && '.' !in r.value.value.payload && '.' !in r.value.value.signature
  {
    if token.None? || token.value == "" then Success(None)
    else
      var parts := Split(token.value, '.');
      SplitCount(token.value, '.');
      SplitJoin(token.value, '.');
      if |parts| != 3 then Failure("Invalid JWT token")
      else
        assert Join(parts, '.') == parts[0] + "." + parts[1] + "." + parts[2] by {
          assert parts[1..][1..] == [parts[2]];
          assert Join(parts[1..][1..], '.') == parts[2];
          assert Join(parts[1..], '.') == parts[1] + ['.'] + parts[2];
          assert Join(parts, '.') == parts[0] + ['.'] + (parts[1] + ['.'] + parts[2]);
        }
        Success(Some(JwtParts(parts[0], parts[1], parts[2])))
  }
}
