/**
 * The loss-report Excel export (service/ExcelServiceImplLoss.java): the loss rows turned into
 * ten columns, the three-value summary below them, and the two signature cells.
 */
module ExcelLoss {
  import opened Wrappers
  import opened Sums
  import opened Rates
  import opened Numerals
  import opened ExcelCells

  /** A loss row as the export reads it; every field may be null. */
  datatype LossRow = LossRow(
    lossReason: Option<string>, lossContents: Option<string>,
    lossWorker: Option<real>, lossTime: Option<real>, lossAmount: Option<real>,
    stateProgressing: Option<string>, lossBlameDept01: Option<string>, remark: Option<string>,
    lossTimeTotal: Option<real>)

  /** A table cell: a (nullable) string or a (nullable) boxed double. */
  datatype Cell = Text(text: Option<string>) | Number(number: Option<real>)

  const Columns: nat := 10

  /** The last column calls `toString` on the total loss time, which throws on null. */
  predicate TotalsPresent(list: seq<LossRow>)
  {
    forall j :: 0 <= j < |list| ==> list[j].lossTimeTotal.Some?
  }

  /**
   * Column `k`, row `j` of the table: the running number j + 1, then the eight fields in the
   * order reason, contents, worker, time, amount, state, department, remark, then the total
   * loss time as text.  `showDouble` stands for `Double.toString`.
   */
  function LossCell(d: LossRow, j: nat, k: nat, showDouble: real -> string): Cell
    requires k < Columns
    requires k == 9 ==> d.lossTimeTotal.Some?
  {
    match k
    case 0 => Text(Some(ShowInt(j + 1)))
    case 1 => Text(d.lossReason)
    case 2 => Text(d.lossContents)
    case 3 => Number(d.lossWorker)
    case 4 => Number(d.lossTime)
    case 5 => Number(d.lossAmount)
    case 6 => Text(d.stateProgressing)
    case 7 => Text(d.lossBlameDept01)
    case 8 => Text(d.remark)
    case 9 => Text(Some(showDouble(d.lossTimeTotal.value)))
  }

  function Column(list: seq<LossRow>, k: nat, showDouble: real -> string): (c: seq<Cell>)
    requires k < Columns && TotalsPresent(list)
    ensures |c| == |list|
  {
    seq(|list|, j requires 0 <= j < |list| => LossCell(list[j], j, k, showDouble))
  }

  /**
   * `lossDataToTable`: ten column lists filled row by row.  A row without a total loss time
   * throws (`None`).
   */
  method LossDataToTable(list: seq<LossRow>, showDouble: real -> string) returns (table: Option<seq<seq<Cell>>>)
    ensures table.None? <==> !TotalsPresent(list)
    ensures table.Some? ==> |table.value| == Columns
    ensures table.Some? ==> forall k :: 0 <= k < Columns ==> table.value[k] == Column(list, k, showDouble)
  {
    // the ten lists (number, reason, contents, worker, time, amount, state, department, remark,
    // total time), kept side by side
    var lists: seq<seq<Cell>> := seq(Columns, k => []);
    for i := 0 to |list|
      invariant |lists| == Columns
      invariant forall j :: 0 <= j < i ==> list[j].lossTimeTotal.Some?
      invariant forall k :: 0 <= k < Columns ==> |lists[k]| == i
      invariant forall k, j :: 0 <= k < Columns && 0 <= j < i ==> lists[k][j] == LossCell(list[j], j, k, showDouble)
    {
      var dto := list[i];
      if dto.lossTimeTotal.None? {
        // `toString` on the null total throws; the lists are local, so nothing is kept
        return None;
      }
      lists := seq(Columns, k requires 0 <= k < Columns => lists[k] + [LossCell(dto, i, k, showDouble)]);
    }
    forall k | 0 <= k < Columns
      ensures lists[k] == Column(list, k, showDouble)
    {
      ColumnOf(lists[k], list, k, showDouble);
    }
    table := Some(lists);
  }

  /** A list that agrees with the column cell by cell is the column. */
  lemma ColumnOf(c: seq<Cell>, list: seq<LossRow>, k: nat, showDouble: real -> string)
    requires k < Columns && TotalsPresent(list) && |c| == |list|
    requires forall j :: 0 <= j < |list| ==> c[j] == LossCell(list[j], j, k, showDouble)
    ensures c == Column(list, k, showDouble)
  {
  }

  function WorkerOf(d: LossRow): real { Val(d.lossWorker) }
  function TimeOf(d: LossRow): real { Val(d.lossTime) }
  function AmountOf(d: LossRow): real { Val(d.lossAmount) }

  /** `mapToDouble` unboxes each value, which throws on null. */
  predicate SummaryPresent(list: seq<LossRow>)
  {
    forall j :: 0 <= j < |list| ==> list[j].lossWorker.Some? && list[j].lossTime.Some? && list[j].lossAmount.Some?
  }

  /** `lossSummaryToTable`: the worker, time and amount sums, in that order. */
  function LossSummary(list: seq<LossRow>): (r: Option<seq<real>>)
    ensures r.None? <==> !SummaryPresent(list)
    ensures r.Some? ==> |r.value| == 3
  {
    if SummaryPresent(list) then Some([SumBy(list, WorkerOf), SumBy(list, TimeOf), SumBy(list, AmountOf)])
    else None
  }

  /** The sum of a column's numbers, null as 0. */
  function NumberSum(cells: seq<Cell>): real
    decreases |cells|
  {
    if |cells| == 0 then 0.0
    else
      var last := cells[|cells| - 1];
      NumberSum(cells[..|cells| - 1]) + (if last.Number? then Val(last.number) else 0.0)
  }

  const NoData: string := "데이터가 없음"

  /** `provideExcelData`: the loss department in C4 and the loss writer in C5, or the no-data text. */
  function HeaderPuts(info: Option<StandardInfo>): seq<Put>
  {
    if info.None? then [Put("C4", Some(NoData)), Put("C5", Some(NoData))]
    else [Put("C4", info.value.loss.department), Put("C5", info.value.loss.writer)]
  }

  method ProvideExcelData(info: Option<StandardInfo>) returns (data: ExcelData)
    ensures fresh(data) && data.cellData == Cells(HeaderPuts(info))
  {
    data := new ExcelData();
    var puts := HeaderPuts(info);
    data.AddData(puts[0].address, puts[0].value);
    data.AddData(puts[1].address, puts[1].value);
    TwoPuts(puts);
  }

  // ---------------------------------------------------------------------------------------------
  // Properties

  /** The running-number column reads back as 1 .. n. */
  lemma Numbering(list: seq<LossRow>, j: nat, showDouble: real -> string)
    requires TotalsPresent(list) && j < |list| < IntMax
    ensures var c := Column(list, 0, showDouble)[j]; c.Text? && c.text.Some? && ParseInt(c.text.value) == Some(j + 1)
  {
    ParseShowRoundTrip(j + 1);
  }

  /** The worker, time and amount columns hold the fields the summary adds up. */
  lemma {:induction false} ColumnSum(list: seq<LossRow>, k: nat, f: LossRow -> real, showDouble: real -> string)
    requires TotalsPresent(list)
    requires (k == 3 && f == WorkerOf) || (k == 4 && f == TimeOf) || (k == 5 && f == AmountOf)
    ensures NumberSum(Column(list, k, showDouble)) == SumBy(list, f)
    decreases |list|
  {
    if |list| > 0 {
      var init := list[..|list| - 1];
      assert TotalsPresent(init) by {
        forall j | 0 <= j < |init| ensures init[j].lossTimeTotal.Some? { assert init[j] == list[j]; }
      }
      ColumnSum(init, k, f, showDouble);
      assert Column(list, k, showDouble)[..|list| - 1] == Column(init, k, showDouble);
    }
  }

  /** The summary below the table is the sum of the table's worker, time and amount columns. */
  lemma SummaryMatchesTable(list: seq<LossRow>, showDouble: real -> string)
    requires TotalsPresent(list) && SummaryPresent(list)
    ensures LossSummary(list) == Some([NumberSum(Column(list, 3, showDouble)),
                                       NumberSum(Column(list, 4, showDouble)),
                                       NumberSum(Column(list, 5, showDouble))])
  {
    ColumnSum(list, 3, WorkerOf, showDouble);
    ColumnSum(list, 4, TimeOf, showDouble);
    ColumnSum(list, 5, AmountOf, showDouble);
  }

  /** Adding rows adds to each summary value. */
  lemma SummaryAppend(xs: seq<LossRow>, ys: seq<LossRow>)
    requires SummaryPresent(xs) && SummaryPresent(ys)
    ensures SummaryPresent(xs + ys)
    ensures LossSummary(xs + ys).value
            == [LossSummary(xs).value[0] + LossSummary(ys).value[0],
                LossSummary(xs).value[1] + LossSummary(ys).value[1],
                LossSummary(xs).value[2] + LossSummary(ys).value[2]]
  {
    assert SummaryPresent(xs + ys) by {
      forall j | 0 <= j < |xs + ys|
        ensures (xs + ys)[j].lossWorker.Some? && (xs + ys)[j].lossTime.Some? && (xs + ys)[j].lossAmount.Some?
      {
        if j >= |xs| { assert (xs + ys)[j] == ys[j - |xs|]; }
      }
    }
    SumByAppend(xs, ys, WorkerOf);
    SumByAppend(xs, ys, TimeOf);
    SumByAppend(xs, ys, AmountOf);
  }

  /** No rows: ten empty columns and a zero summary. */
  lemma Empty(showDouble: real -> string)
    ensures LossSummary([]) == Some([0.0, 0.0, 0.0])
    ensures forall k :: 0 <= k < Columns ==> Column([], k, showDouble) == []
  {
  }

  /** Without a record both cells read "데이터가 없음"; with one, the loss department and writer. */
  lemma HeaderCells(info: Option<StandardInfo>)
    ensures Cells(HeaderPuts(info)).Keys == {"C4", "C5"}
    ensures info.None? ==> Cells(HeaderPuts(info))["C4"] == Some(NoData) && Cells(HeaderPuts(info))["C5"] == Some(NoData)
    ensures info.Some? ==> Cells(HeaderPuts(info))["C4"] == info.value.loss.department
                           && Cells(HeaderPuts(info))["C5"] == info.value.loss.writer
  {
    TwoPuts(HeaderPuts(info));
  }
}
