/**
 * The purchase service's list handling: folding the ACCY and finished-product ("제품") rows of
 * the daily material-cost and stock-status tables into one trailing row, and the search for
 * saved purchase reports, which lists each date once.
 */
module PurchaseService {
  import opened Wrappers
  import opened Sums
  import opened PurchaseFields
  import opened PurchaseResponse
  import opened Seqs

  /** The category the folded daily material-cost row receives. */
  const OtherCategory := "기타"

  /** The categories folded into the trailing row. */
  predicate ShouldMerge(category: string)
  {
    category == "ACCY" || category == "제품"
  }

  // ---------------------------------------------------------------------------------------------
  // Daily material cost

  predicate MaterialMerges(r: MaterialRow)
  {
    r.category.Some? && ShouldMerge(r.category.value)
  }

  predicate MaterialKept(r: MaterialRow)
  {
    !MaterialMerges(r)
  }

  /** The amounts of the folded row: each merge adds a removed row's amounts to it, from all-null. */
  function FoldMaterial(rows: seq<MaterialRow>): MaterialAmounts
    decreases |rows|
  {
    if |rows| == 0 then NullAmounts else MergeAmounts(FoldMaterial(rows[..|rows| - 1]), rows[|rows| - 1].amounts)
  }

  /** The trailing row: "기타" once something was folded into it, otherwise null; no plan figures. */
  function MergedMaterialRow(rows: seq<MaterialRow>): MaterialRow
  {
    var removed := Filter(rows, MaterialMerges);
    MaterialRow(if |removed| > 0 then Some(OtherCategory) else None, None, None, FoldMaterial(removed))
  }

  /**
   * `mergeDailyMaterialCostDTOs`: the `removeIf` pass keeps the rows of other categories in
   * their order and adds each ACCY or "제품" row into a new row, which then takes the category
   * "기타"; that row is appended at the end.
   */
  method MergeDailyMaterialCosts(list: seq<MaterialRow>) returns (result: seq<MaterialRow>, merged: DailyMaterialCost)
    requires forall i :: 0 <= i < |list| ==> list[i].category.Some?
    ensures fresh(merged)
    ensures result == Filter(list, MaterialKept) + [merged.Row()]
    ensures merged.Row() == MergedMaterialRow(list)
  {
    merged := new DailyMaterialCost.Empty();
    var kept: seq<MaterialRow> := [];
    var i := 0;
    while i < |list|
      invariant 0 <= i <= |list|
      invariant fresh(merged)
      invariant kept == Filter(list[..i], MaterialKept)
      invariant merged.Row() == MergedMaterialRow(list[..i])
    {
      assert list[..i + 1] == list[..i] + [list[i]];
      FilterSnoc(list[..i], list[i], MaterialKept);
      MergedMaterialRowSnoc(list[..i], list[i]);
      if ShouldMerge(list[i].category.value) {
        merged.Merge(list[i]);
        merged.SetCategory(Some(OtherCategory));
      } else {
        kept := kept + [list[i]];
      }
      i := i + 1;
    }
    assert list[..|list|] == list;
    result := kept + [merged.Row()];
  }

  lemma FoldMaterialSnoc(rows: seq<MaterialRow>, r: MaterialRow)
    ensures FoldMaterial(rows + [r]) == MergeAmounts(FoldMaterial(rows), r.amounts)
  {
    assert (rows + [r])[..|rows + [r]| - 1] == rows;
  }

  lemma MergedMaterialRowSnoc(rows: seq<MaterialRow>, r: MaterialRow)
    ensures MaterialMerges(r) ==>
              MergedMaterialRow(rows + [r])
              == MergedMaterialRow(rows).(category := Some(OtherCategory), amounts := MergeAmounts(MergedMaterialRow(rows).amounts, r.amounts))
    ensures !MaterialMerges(r) ==> MergedMaterialRow(rows + [r]) == MergedMaterialRow(rows)
  {
    FilterSnoc(rows, r, MaterialMerges);
    var removed := Filter(rows, MaterialMerges);
    assert removed + [] == removed;
    assert (removed + [r])[..|removed + [r]| - 1] == removed;
  }

  // ---------------------------------------------------------------------------------------------
  // Stock status

  predicate StockMerges(r: StockRow)
  {
    r.category.Some? && ShouldMerge(r.category.value)
  }

  predicate StockKept(r: StockRow)
  {
    !StockMerges(r)
  }

  /** The columns of the folded stock row; `merge` adds the source's columns to the row's own. */
  function FoldStock(rows: seq<StockRow>): Columns
    decreases |rows|
  {
    if |rows| == 0 then NullColumns else MergeColumns(rows[|rows| - 1].values, FoldStock(rows[..|rows| - 1]))
  }

  /** The trailing stock row never receives a category. */
  function MergedStockRow(rows: seq<StockRow>): StockRow
  {
    StockRow(None, FoldStock(Filter(rows, StockMerges)))
  }

  /** `mergeStockStatusDTOs`: as for the material costs, but the folded row keeps a null category. */
  method MergeStockStatuses(list: seq<StockRow>) returns (result: seq<StockRow>, merged: StockStatus)
    requires forall i :: 0 <= i < |list| ==> list[i].category.Some?
    ensures fresh(merged)
    ensures result == Filter(list, StockKept) + [merged.Row()]
    ensures merged.Row() == MergedStockRow(list)
  {
    merged := new StockStatus.Empty();
    var kept: seq<StockRow> := [];
    var i := 0;
    while i < |list|
      invariant 0 <= i <= |list|
      invariant fresh(merged)
      invariant kept == Filter(list[..i], StockKept)
      invariant merged.Row() == MergedStockRow(list[..i])
    {
      assert list[..i + 1] == list[..i] + [list[i]];
      FilterSnoc(list[..i], list[i], StockKept);
      MergedStockRowSnoc(list[..i], list[i]);
      if ShouldMerge(list[i].category.value) {
        merged.Merge(list[i]);
      } else {
        kept := kept + [list[i]];
      }
      i := i + 1;
    }
    assert list[..|list|] == list;
    result := kept + [merged.Row()];
  }

  lemma MergedStockRowSnoc(rows: seq<StockRow>, r: StockRow)
    ensures StockMerges(r) ==> MergedStockRow(rows + [r]) == StockRow(None, MergeColumns(r.values, MergedStockRow(rows).values))
    ensures !StockMerges(r) ==> MergedStockRow(rows + [r]) == MergedStockRow(rows)
  {
    FilterSnoc(rows, r, StockMerges);
    var removed := Filter(rows, StockMerges);
    assert removed + [] == removed;
    assert (removed + [r])[..|removed + [r]| - 1] == removed;
  }

  // ---------------------------------------------------------------------------------------------
  // Searching saved reports

  /** A saved stock snapshot: its id and the day of its creation time (null when unset). */
  datatype Snapshot = Snapshot(id: int, createDate: Option<int>)

  /** An entry of the search result; the date is shown formatted, which the model leaves out. */
  datatype SearchReport = SearchReport(id: int, name: string, createDate: int)

  const ReportName := "구매 및 입고 현황"

  predicate InRange(s: Snapshot, startDate: int, endDate: int)
  {
    s.createDate.Some? && startDate <= s.createDate.value <= endDate
  }

  /** The dates of the in-range snapshots. */
  function RangeDates(records: seq<Snapshot>, startDate: int, endDate: int): set<int>
    decreases |records|
  {
    if |records| == 0 then {}
    else
      var last := records[|records| - 1];
      RangeDates(records[..|records| - 1], startDate, endDate) + (if InRange(last, startDate, endDate) then {last.createDate.value} else {})
  }

  function Report(s: Snapshot): SearchReport
    requires s.createDate.Some?
  {
    SearchReport(s.id, ReportName, s.createDate.value)
  }

  /** The result of the search: the in-range snapshots whose date no earlier in-range snapshot had. */
  function Search(records: seq<Snapshot>, startDate: int, endDate: int): seq<SearchReport>
    decreases |records|
  {
    if |records| == 0 then []
    else
      var init, last := records[..|records| - 1], records[|records| - 1];
      Search(init, startDate, endDate)
      + (if InRange(last, startDate, endDate) && last.createDate.value !in RangeDates(init, startDate, endDate)
         then [Report(last)] else [])
  }

  /** `searchPurchase`: one pass over the snapshots with the set of dates already listed. */
  method SearchPurchase(records: seq<Snapshot>, startDate: int, endDate: int) returns (results: seq<SearchReport>)
    ensures results == Search(records, startDate, endDate)
  {
    results := [];
    var processedDates: set<int> := {};
    var i := 0;
    while i < |records|
      invariant 0 <= i <= |records|
      invariant processedDates == RangeDates(records[..i], startDate, endDate)
      invariant results == Search(records[..i], startDate, endDate)
    {
      assert records[..i + 1][..i] == records[..i];
      var r := records[i];
      if r.createDate.Some? {
        var createDate := r.createDate.value;
        if startDate <= createDate && createDate <= endDate {
          if createDate !in processedDates {
            results := results + [SearchReport(r.id, ReportName, createDate)];
            processedDates := processedDates + {createDate};
          }
        }
      }
      i := i + 1;
    }
    assert records[..|records|] == records;
  }

  // ---------------------------------------------------------------------------------------------
  // Properties

  /**
   * The material-cost list after merging: no ACCY or "제품" row remains, the kept rows and the
   * folded ones together are the original rows, and the list length is n - removed + 1.
   */
  lemma MaterialMergePartition(rows: seq<MaterialRow>)
    ensures forall r :: r in Filter(rows, MaterialKept) ==> !MaterialMerges(r)
    ensures |Filter(rows, MaterialKept)| + 1 == |rows| - |Filter(rows, MaterialMerges)| + 1
    ensures multiset(Filter(rows, MaterialKept)) + multiset(Filter(rows, MaterialMerges)) == multiset(rows)
  {
    FilterMembers(rows, MaterialKept);
    FilterPartition(rows, MaterialKept, MaterialMerges);
  }

  /** The kept rows keep their relative order: filtering a concatenation concatenates the filtered parts. */
  lemma MaterialKeptOrder(xs: seq<MaterialRow>, ys: seq<MaterialRow>)
    ensures Filter(xs + ys, MaterialKept) == Filter(xs, MaterialKept) + Filter(ys, MaterialKept)
  {
    FilterAppend(xs, ys, MaterialKept);
  }

  /** The column getter used to state the folded sums. */
  function MaterialColumn(k: AmountKey): MaterialRow -> real
  {
    (r: MaterialRow) => Val(Cell(r.amounts, k))
  }

  /** Once something is folded in, every column of the folded row is the null-as-0 sum over the folded rows. */
  lemma {:induction false} FoldMaterialSums(rows: seq<MaterialRow>, k: AmountKey)
    ensures |rows| > 0 ==> Cell(FoldMaterial(rows), k) == Some(SumBy(rows, MaterialColumn(k)))
    ensures |rows| == 0 ==> Cell(FoldMaterial(rows), k).None?
    decreases |rows|
  {
    if |rows| > 0 {
      var init := rows[..|rows| - 1];
      FoldMaterialSums(init, k);
      MergeAmountsCell(FoldMaterial(init), rows[|rows| - 1].amounts, k);
      match k.kind
      case DirectTransaction => case Subcontract => case TotalTransaction =>
      case DirectReceipt => case SubcontractReceipt => case TotalReceipt =>
      case PendingDirect => case PendingSubcontract => case PendingTotal =>
    }
  }

  /** The folded row is "기타" exactly when some row had category ACCY or "제품". */
  lemma MergedMaterialCategory(rows: seq<MaterialRow>)
    ensures MergedMaterialRow(rows).category == Some(OtherCategory) <==> exists r :: r in rows && MaterialMerges(r)
    ensures MergedMaterialRow(rows).category.None? <==> forall r :: r in rows ==> !MaterialMerges(r)
  {
    FilterMembers(rows, MaterialMerges);
    var removed := Filter(rows, MaterialMerges);
    if |removed| > 0 {
      assert removed[0] in removed;
    }
  }

  /** Folding rows whose totals are direct + subcontract gives a folded row with the same property. */
  lemma {:induction false} FoldMaterialKeepsTotals(rows: seq<MaterialRow>, p: Period, t: Triple)
    requires |rows| > 0
    requires forall i :: 0 <= i < |rows| ==> TotalsAdd(rows[i].amounts, p, t)
    ensures TotalsAdd(FoldMaterial(rows), p, t)
    decreases |rows|
  {
    var init := rows[..|rows| - 1];
    if |init| > 0 {
      FoldMaterialKeepsTotals(init, p, t);
      MergeKeepsTotals(FoldMaterial(init), rows[|rows| - 1].amounts, p, t);
    } else {
      assert TotalsAdd(NullAmounts, p, t) by { match t case Orders => case Receipts => case Pending => }
      MergeKeepsTotals(NullAmounts, rows[0].amounts, p, t);
    }
  }

  /** The stock list after merging: no ACCY or "제품" row remains and nothing is lost. */
  lemma StockMergePartition(rows: seq<StockRow>)
    ensures forall r :: r in Filter(rows, StockKept) ==> !StockMerges(r)
    ensures multiset(Filter(rows, StockKept)) + multiset(Filter(rows, StockMerges)) == multiset(rows)
    ensures MergedStockRow(rows).category.None?
  {
    FilterMembers(rows, StockKept);
    FilterPartition(rows, StockKept, StockMerges);
  }

  function StockColumn(f: StockField): StockRow -> real
  {
    (r: StockRow) => Val(StockCell(r.values, f))
  }

  /** Once something is folded in, each stock column is the null-as-0 sum over the folded rows. */
  lemma {:induction false} FoldStockSums(rows: seq<StockRow>, f: StockField)
    ensures |rows| > 0 ==> StockCell(FoldStock(rows), f) == Some(SumBy(rows, StockColumn(f)))
    ensures |rows| == 0 ==> FoldStock(rows) == NullColumns
    decreases |rows|
  {
    if |rows| > 0 {
      var init := rows[..|rows| - 1];
      FoldStockSums(init, f);
      MergeColumnsAdds(rows[|rows| - 1].values, FoldStock(init), f);
    }
  }

  /** The search lists only in-range dates. */
  lemma {:induction false} SearchInRange(records: seq<Snapshot>, startDate: int, endDate: int)
    ensures forall i :: 0 <= i < |Search(records, startDate, endDate)| ==>
              startDate <= Search(records, startDate, endDate)[i].createDate <= endDate
    decreases |records|
  {
    if |records| > 0 {
      SearchInRange(records[..|records| - 1], startDate, endDate);
    }
  }

  /** The dates the search lists are exactly the dates of the in-range snapshots. */
  lemma {:induction false} SearchDates(records: seq<Snapshot>, startDate: int, endDate: int)
    ensures forall d :: d in RangeDates(records, startDate, endDate) <==>
              exists i :: 0 <= i < |Search(records, startDate, endDate)| && Search(records, startDate, endDate)[i].createDate == d
    decreases |records|
  {
    if |records| > 0 {
      var init := records[..|records| - 1];
      SearchDates(init, startDate, endDate);
      var s := Search(init, startDate, endDate);
      var s' := Search(records, startDate, endDate);
      assert s'[..|s|] == s;
      forall d | d in RangeDates(records, startDate, endDate)
        ensures exists i :: 0 <= i < |s'| && s'[i].createDate == d
      {
        if d in RangeDates(init, startDate, endDate) {
          var i :| 0 <= i < |s| && s[i].createDate == d;
          assert s'[i] == s[i];
        } else {
          assert s'[|s|].createDate == d;
        }
      }
    }
  }

  /** No date is listed twice, and the first in-range snapshot of a date gives its entry. */
  lemma {:induction false} SearchDistinctDates(records: seq<Snapshot>, startDate: int, endDate: int)
    ensures forall i, j :: 0 <= i < j < |Search(records, startDate, endDate)| ==>
              Search(records, startDate, endDate)[i].createDate != Search(records, startDate, endDate)[j].createDate
    decreases |records|
  {
    if |records| > 0 {
      var init := records[..|records| - 1];
      SearchDistinctDates(init, startDate, endDate);
      SearchDates(init, startDate, endDate);
      var s := Search(init, startDate, endDate);
      var s' := Search(records, startDate, endDate);
      assert s'[..|s|] == s;
      forall i, j | 0 <= i < j < |s'| ensures s'[i].createDate != s'[j].createDate {
        if j < |s| {
          assert s'[i] == s[i] && s'[j] == s[j];
        } else {
          assert s'[i] == s[i];
        }
      }
    }
  }

  /** Later snapshots never change the entries listed for earlier ones: the first snapshot of a date wins. */
  lemma {:induction false} SearchPrefix(xs: seq<Snapshot>, ys: seq<Snapshot>, startDate: int, endDate: int)
    ensures |Search(xs, startDate, endDate)| <= |Search(xs + ys, startDate, endDate)|
    ensures Search(xs + ys, startDate, endDate)[..|Search(xs, startDate, endDate)|] == Search(xs, startDate, endDate)
    decreases |ys|
  {
    if |ys| == 0 {
      assert xs + ys == xs;
    } else {
      assert (xs + ys)[..|xs + ys| - 1] == xs + ys[..|ys| - 1];
      SearchPrefix(xs, ys[..|ys| - 1], startDate, endDate);
    }
  }

  /** The first in-range snapshot of a date is listed, with its own id. */
  lemma FirstSnapshotListed(xs: seq<Snapshot>, r: Snapshot, ys: seq<Snapshot>, startDate: int, endDate: int)
    requires InRange(r, startDate, endDate) && r.createDate.value !in RangeDates(xs, startDate, endDate)
    ensures Report(r) in Search(xs + [r] + ys, startDate, endDate)
  {
    assert (xs + [r])[..|xs + [r]| - 1] == xs;
    var s := Search(xs + [r], startDate, endDate);
    assert s[|s| - 1] == Report(r);
    SearchPrefix(xs + [r], ys, startDate, endDate);
    assert Search(xs + [r] + ys, startDate, endDate)[|s| - 1] == Report(r);
  }
}
