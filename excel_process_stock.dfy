/**
 * The process-stock Excel export (service/ExcelProcessStock.java): the stock rows are grouped
 * by assembly category in a fixed order, each group is written as numbered rows followed by a
 * total row, and a grand total over all rows closes the sheet.
 */
module ExcelProcessStock {
  import opened Wrappers
  import opened Sums
  import opened Seqs
  import opened ExcelCells

  /** A process-stock response row; the thirteen amounts are numbered 0 .. 12 in sheet order. */
  datatype StockLine = StockLine(
    category: Option<string>,
    productName: Option<string>, modelNo: Option<string>, specification: Option<string>,
    materialCost: real, processingCost: real, totalCost: real,
    wipQuantity: real, wipCost: real, qcPendingQuantity: real, qcPendingCost: real,
    qcPassedQuantity: real, qcPassedCost: real, defectiveQuantity: real, defectiveCost: real,
    totalQuantity: real, totalCostSummary: real,
    remarks: Option<string>)

  const AmountColumns: nat := 13

  /** Amount `k` of a row: material cost, processing cost, total cost, WIP quantity, ... */
  function Amount(s: StockLine, k: nat): real
    requires k < AmountColumns
  {
    match k
    case 0 => s.materialCost
    case 1 => s.processingCost
    case 2 => s.totalCost
    case 3 => s.wipQuantity
    case 4 => s.wipCost
    case 5 => s.qcPendingQuantity
    case 6 => s.qcPendingCost
    case 7 => s.qcPassedQuantity
    case 8 => s.qcPassedCost
    case 9 => s.defectiveQuantity
    case 10 => s.defectiveCost
    case 11 => s.totalQuantity
    case _ => s.totalCostSummary
  }

  function AmountOf(k: nat): StockLine -> real
    requires k < AmountColumns
  {
    (s: StockLine) => Amount(s, k)
  }

  /** `sumData`: the thirteen column sums of the given rows. */
  function Totals(stocks: seq<StockLine>): (r: seq<real>)
    ensures |r| == AmountColumns
  {
    seq(AmountColumns, k requires 0 <= k < AmountColumns => SumBy(stocks, AmountOf(k)))
  }

  /** The category order of the sheet. */
  const ArrSort: seq<string> := ["SM ASSY", "IM ASSY", "DIP ASSY", "PCB ASSY", "CASE ASSY", "PACKING ASSY"]

  const FirstRow: int := 10
  const Gap: int := 5

  /** The keys of a linked hash map filled by `put` in the given order: first occurrences. */
  function Distinct(xs: seq<string>): (r: seq<string>)
    decreases |xs|
  {
    if |xs| == 0 then []
    else
      var d := Distinct(xs[..|xs| - 1]);
      if xs[|xs| - 1] in d then d else d + [xs[|xs| - 1]]
  }

  function InCategory(c: string): StockLine -> bool
  {
    (s: StockLine) => s.category == Some(c)
  }

  /** The rows of one category, in input order. */
  function RowsOf(stocks: seq<StockLine>, c: string): seq<StockLine>
  {
    Filter(stocks, InCategory(c))
  }

  /** The category lists, one per key. */
  function Categorized(stocks: seq<StockLine>, keys: seq<string>): (r: seq<seq<StockLine>>)
    ensures |r| == |keys|
  {
    seq(|keys|, j requires 0 <= j < |keys| => RowsOf(stocks, keys[j]))
  }

  function IndexOf(keys: seq<string>, c: string): (j: nat)
    requires c in keys
    ensures j < |keys| && keys[j] == c
    ensures forall i :: 0 <= i < j ==> keys[i] != c
    decreases |keys|
  {
    if keys[0] == c then 0 else 1 + IndexOf(keys[1..], c)
  }

  /**
   * `categorizeByCategory`: a linked map with one empty list per category of `arrSort`, in
   * order, then every row appended to the list of its category; a row of any other category
   * (or of none) is in no list.
   */
  method CategorizeByCategory(stocks: seq<StockLine>, arrSort: seq<string>)
    returns (keys: seq<string>, lists: seq<seq<StockLine>>)
    ensures keys == Distinct(arrSort)
    ensures lists == Categorized(stocks, keys)
  {
    keys := [];
    lists := [];
    for i := 0 to |arrSort|
      invariant keys == Distinct(arrSort[..i])
      invariant |lists| == |keys|
      invariant forall j :: 0 <= j < |lists| ==> lists[j] == []
    {
      assert arrSort[..i + 1][..i] == arrSort[..i];
      if arrSort[i] !in keys {
        keys := keys + [arrSort[i]];
        lists := lists + [[]];
      }
    }
    assert arrSort[..|arrSort|] == arrSort;
    DistinctMembers(arrSort);
    for i := 0 to |stocks|
      invariant |lists| == |keys|
      invariant forall j :: 0 <= j < |keys| ==> lists[j] == RowsOf(stocks[..i], keys[j])
    {
      assert stocks[..i + 1] == stocks[..i] + [stocks[i]];
      var c := stocks[i].category;
      var before := lists;
      if c.Some? && c.value in keys {
        var j := IndexOf(keys, c.value);
        lists := lists[j := lists[j] + [stocks[i]]];
      }
      forall j | 0 <= j < |keys| ensures lists[j] == RowsOf(stocks[..i + 1], keys[j]) {
        FilterSnoc(stocks[..i], stocks[i], InCategory(keys[j]));
      }
    }
    assert stocks[..|stocks|] == stocks;
  }

  /** A written sheet row: a numbered stock row or a total ("합계") row. */
  datatype SheetRow =
    | StockRow(index: int, no: int, stock: StockLine)
    | TotalRow(index: int, totals: seq<real>)

  /** The numbered rows of one category, from `start`, followed by its total row. */
  function Block(items: seq<StockLine>, start: int): (r: seq<SheetRow>)
    ensures |r| == |items| + 1
  {
    seq(|items|, i requires 0 <= i < |items| => StockRow(start + i, i + 1, items[i]))
      + [TotalRow(start + |items|, Totals(items))]
  }

  /** The row index after the blocks of `groups` written from `start`. */
  function RowAfter(groups: seq<seq<StockLine>>, start: int): int
    decreases |groups|
  {
    if |groups| == 0 then start
    else RowAfter(groups[..|groups| - 1], start) + |groups[|groups| - 1]| + Gap
  }

  function Blocks(groups: seq<seq<StockLine>>, start: int): seq<SheetRow>
    decreases |groups|
  {
    if |groups| == 0 then []
    else
      var init := groups[..|groups| - 1];
      Blocks(init, start) + Block(groups[|groups| - 1], RowAfter(init, start))
  }

  /** The whole sheet: the category blocks, then the grand total five rows further down. */
  function Sheet(stocks: seq<StockLine>): seq<SheetRow>
  {
    var groups := Categorized(stocks, Distinct(ArrSort));
    Blocks(groups, FirstRow) + [TotalRow(RowAfter(groups, FirstRow) + Gap, Totals(stocks))]
  }

  /** `addData`: the rows it creates, with their indices, numbers and totals. */
  method AddData(stocks: seq<StockLine>) returns (rows: seq<SheetRow>)
    ensures rows == Sheet(stocks)
  {
    var keys, groups := CategorizeByCategory(stocks, ArrSort);
    var rowIndex := FirstRow;
    rows := [];
    for g := 0 to |groups|
      invariant rowIndex == RowAfter(groups[..g], FirstRow)
      invariant rows == Blocks(groups[..g], FirstRow)
    {
      var categoryStocks := groups[g];
      var start := rowIndex;
      var no := 0;
      var block: seq<SheetRow> := [];
      for i := 0 to |categoryStocks|
        invariant no == i && rowIndex == start + i
        invariant block == seq(i, k requires 0 <= k < i => StockRow(start + k, k + 1, categoryStocks[k]))
      {
        no := no + 1;
        block := block + [StockRow(rowIndex, no, categoryStocks[i])];
        rowIndex := rowIndex + 1;
      }
      block := block + [TotalRow(rowIndex, Totals(categoryStocks))];
      assert groups[..g + 1][..g] == groups[..g];
      assert block == Block(categoryStocks, start);
      rows := rows + block;
      rowIndex := rowIndex + Gap;
    }
    assert groups[..|groups|] == groups;
    rowIndex := rowIndex + Gap;
    rows := rows + [TotalRow(rowIndex, Totals(stocks))];
  }

  /** `provideExcelData`: no record gives no map (null); otherwise the department and writer cells. */
  function HeaderPuts(info: StandardInfo): seq<Put>
  {
    [Put("A4", Some(Concat(DepartmentPrefix, info.processStock.department))),
     Put("A5", Some(Concat("◆ 작 성 자 : ", info.processStock.writer)))]
  }

  method ProvideExcelData(info: Option<StandardInfo>) returns (data: ExcelData?)
    ensures info.None? ==> data == null
    ensures info.Some? ==> data != null && fresh(data) && data.cellData == Cells(HeaderPuts(info.value))
  {
    if info.None? {
      return null;
    }
    data := new ExcelData();
    var puts := HeaderPuts(info.value);
    data.AddData(puts[0].address, puts[0].value);
    data.AddData(puts[1].address, puts[1].value);
    TwoPuts(HeaderPuts(info.value));
  }

  // ---------------------------------------------------------------------------------------------
  // Properties

  /** The sheet's categories are the six assembly categories, each once, in the fixed order. */
  lemma ArrSortKeys()
    ensures Distinct(ArrSort) == ArrSort
  {
    assert Distinct(ArrSort[..1]) == ArrSort[..1] by { assert ArrSort[..1][..0] == []; }
    assert Distinct(ArrSort[..2]) == ArrSort[..2] by { assert ArrSort[..2][..1] == ArrSort[..1]; }
    assert Distinct(ArrSort[..3]) == ArrSort[..3] by { assert ArrSort[..3][..2] == ArrSort[..2]; }
    assert Distinct(ArrSort[..4]) == ArrSort[..4] by { assert ArrSort[..4][..3] == ArrSort[..3]; }
    assert Distinct(ArrSort[..5]) == ArrSort[..5] by { assert ArrSort[..5][..4] == ArrSort[..4]; }
    assert ArrSort[..6][..5] == ArrSort[..5];
    assert ArrSort[..6] == ArrSort;
  }

  /** The keys are the categories of `arrSort`, each once. */
  lemma {:induction false} DistinctMembers(xs: seq<string>)
    ensures forall c :: c in Distinct(xs) <==> c in xs
    ensures forall i, j :: 0 <= i < j < |Distinct(xs)| ==> Distinct(xs)[i] != Distinct(xs)[j]
    decreases |xs|
  {
    if |xs| > 0 {
      DistinctMembers(xs[..|xs| - 1]);
      assert xs == xs[..|xs| - 1] + [xs[|xs| - 1]];
    }
  }

  /**
   * A row is in the list of its own category, keeping input order, and in no other; a row whose
   * category is not a key is in none.
   */
  lemma RowPlacement(stocks: seq<StockLine>, keys: seq<string>, j: nat, s: StockLine)
    requires j < |keys|
    ensures s in Categorized(stocks, keys)[j] <==> s in stocks && s.category == Some(keys[j])
  {
    FilterMembers(stocks, InCategory(keys[j]));
  }

  /** Column totals add up over a split of the rows. */
  lemma TotalsAppend(a: seq<StockLine>, b: seq<StockLine>, k: nat)
    requires k < AmountColumns
    ensures Totals(a + b)[k] == Totals(a)[k] + Totals(b)[k]
  {
    SumByAppend(a, b, AmountOf(k));
  }

  function NotInKeys(keys: seq<string>): StockLine -> bool
  {
    (s: StockLine) => s.category.None? || s.category.value !in keys
  }

  /** The sum of a column over a list of groups. */
  function GroupsSum(groups: seq<seq<StockLine>>, f: StockLine -> real): real
    decreases |groups|
  {
    if |groups| == 0 then 0.0 else GroupsSum(groups[..|groups| - 1], f) + SumBy(groups[|groups| - 1], f)
  }

  /** Appending one row to every group: over distinct keys, only the group of its category grows. */
  lemma {:induction false} GroupsSumSnoc(stocks: seq<StockLine>, x: StockLine, keys: seq<string>, f: StockLine -> real)
    requires forall i, j :: 0 <= i < j < |keys| ==> keys[i] != keys[j]
    ensures GroupsSum(Categorized(stocks + [x], keys), f)
            == GroupsSum(Categorized(stocks, keys), f)
               + (if x.category.Some? && x.category.value in keys then f(x) else 0.0)
    decreases |keys|
  {
    if |keys| > 0 {
      var init := keys[..|keys| - 1];
      GroupsSumSnoc(stocks, x, init, f);
      assert Categorized(stocks + [x], keys)[..|keys| - 1] == Categorized(stocks + [x], init);
      assert Categorized(stocks, keys)[..|keys| - 1] == Categorized(stocks, init);
      var c := keys[|keys| - 1];
      assert c !in init;
      var g := Categorized(stocks + [x], keys);
      var h := Categorized(stocks, keys);
      assert GroupsSum(g, f) == GroupsSum(g[..|keys| - 1], f) + SumBy(g[|keys| - 1], f);
      assert GroupsSum(h, f) == GroupsSum(h[..|keys| - 1], f) + SumBy(h[|keys| - 1], f);
      FilterSnoc(stocks, x, InCategory(c));
      if x.category == Some(c) {
        assert g[|keys| - 1] == h[|keys| - 1] + [x];
        SumByAppend(h[|keys| - 1], [x], f);
        assert SumBy([x], f) == f(x) by { assert [x][..0] == []; }
      } else {
        assert g[|keys| - 1] == h[|keys| - 1];
        assert x.category.Some? ==> (x.category.value in keys <==> x.category.value in init) by {
          assert keys == init + [c];
        }
      }
    }
  }

  /**
   * Conservation: over distinct keys, every column of the whole input is the column summed
   * over the category lists plus the rows dropped for an unknown category.
   */
  lemma {:induction false} GroupsCoverInput(stocks: seq<StockLine>, keys: seq<string>, f: StockLine -> real)
    requires forall i, j :: 0 <= i < j < |keys| ==> keys[i] != keys[j]
    ensures SumBy(stocks, f) == GroupsSum(Categorized(stocks, keys), f) + SumBy(Filter(stocks, NotInKeys(keys)), f)
    decreases |stocks|
  {
    if |stocks| == 0 {
      ZeroGroups(keys, f);
    } else {
      var init := stocks[..|stocks| - 1];
      var x := stocks[|stocks| - 1];
      GroupsCoverInput(init, keys, f);
      assert stocks == init + [x];
      GroupsSumSnoc(init, x, keys, f);
      FilterSnoc(init, x, NotInKeys(keys));
      assert SumBy([x], f) == f(x) by { assert [x][..0] == []; }
      if NotInKeys(keys)(x) {
        assert Filter(stocks, NotInKeys(keys)) == Filter(init, NotInKeys(keys)) + [x];
        SumByAppend(Filter(init, NotInKeys(keys)), [x], f);
      } else {
        assert Filter(stocks, NotInKeys(keys)) == Filter(init, NotInKeys(keys));
      }
    }
  }

  lemma {:induction false} ZeroGroups(keys: seq<string>, f: StockLine -> real)
    ensures GroupsSum(Categorized([], keys), f) == 0.0
    decreases |keys|
  {
    if |keys| > 0 {
      assert Categorized([], keys)[..|keys| - 1] == Categorized([], keys[..|keys| - 1]);
      ZeroGroups(keys[..|keys| - 1], f);
    }
  }

  /**
   * The grand total covers every row: column `k` of the last row of the sheet is the sum of
   * column `k` of the category total rows plus that of the rows in no category.
   */
  lemma GrandTotalCoversAll(stocks: seq<StockLine>, k: nat)
    requires k < AmountColumns
    ensures Sheet(stocks)[|Sheet(stocks)| - 1].totals[k]
            == GroupsSum(Categorized(stocks, ArrSort), AmountOf(k))
               + SumBy(Filter(stocks, NotInKeys(ArrSort)), AmountOf(k))
  {
    ArrSortKeys();
    DistinctMembers(ArrSort);
    GroupsCoverInput(stocks, ArrSort, AmountOf(k));
  }

  /** In every block the stock rows are numbered 1 .. n on consecutive rows, then the total row. */
  lemma BlockNumbering(items: seq<StockLine>, start: int, i: nat)
    requires i < |items|
    ensures Block(items, start)[i] == StockRow(start + i, i + 1, items[i])
    ensures Block(items, start)[|items|] == TotalRow(start + |items|, Totals(items))
  {
  }

  /** Sheet rows are written to strictly increasing row indices, so none overwrites another. */
  predicate Increasing(rows: seq<SheetRow>)
  {
    forall i, j :: 0 <= i < j < |rows| ==> rows[i].index < rows[j].index
  }

  lemma {:induction false} BlocksIncreasing(groups: seq<seq<StockLine>>, start: int)
    ensures Increasing(Blocks(groups, start))
    ensures forall r :: r in Blocks(groups, start) ==> start <= r.index < RowAfter(groups, start)
    decreases |groups|
  {
    if |groups| > 0 {
      var init := groups[..|groups| - 1];
      BlocksIncreasing(init, start);
      var b := Block(groups[|groups| - 1], RowAfter(init, start));
      assert forall r :: r in b ==> RowAfter(init, start) <= r.index < RowAfter(groups, start);
      assert RowAfter(init, start) >= start by {
        RowAfterGrows(init, start);
      }
      var all := Blocks(init, start) + b;
      forall i, j | 0 <= i < j < |all| ensures all[i].index < all[j].index {
        if j < |Blocks(init, start)| {
        } else if i >= |Blocks(init, start)| {
          assert all[i] == b[i - |Blocks(init, start)|];
          assert all[j] == b[j - |Blocks(init, start)|];
        } else {
          assert all[i] in Blocks(init, start);
          assert all[j] == b[j - |Blocks(init, start)|];
          assert all[j] in b;
        }
      }
    }
  }

  lemma {:induction false} RowAfterGrows(groups: seq<seq<StockLine>>, start: int)
    ensures RowAfter(groups, start) >= start
    decreases |groups|
  {
    if |groups| > 0 { RowAfterGrows(groups[..|groups| - 1], start); }
  }

  lemma SheetIncreasing(stocks: seq<StockLine>)
    ensures Increasing(Sheet(stocks))
  {
    var groups := Categorized(stocks, Distinct(ArrSort));
    BlocksIncreasing(groups, FirstRow);
    var all := Sheet(stocks);
    var bs := Blocks(groups, FirstRow);
    forall i, j | 0 <= i < j < |all| ensures all[i].index < all[j].index {
      if j == |all| - 1 {
        assert all[i] in bs;
      }
    }
  }

  /** No record: no cell map.  Otherwise the two signature cells, department first. */
  lemma HeaderCells(info: StandardInfo)
    ensures Cells(HeaderPuts(info)).Keys == {"A4", "A5"}
    ensures Cells(HeaderPuts(info))["A4"] == Some(DepartmentPrefix + (if info.processStock.department.Some? then info.processStock.department.value else "null"))
  {
    TwoPuts(HeaderPuts(info));
  }}
