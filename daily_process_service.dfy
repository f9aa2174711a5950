/**
 * The list handling of the daily process report service: which daily rows and lot results become
 * production performance statuses, the merge of several lot results of one lot, the completed
 * quantity of a lot result, the shape of the report response with its split of work losses,
 * and the partial update of a report from a request.
 */
module DailyProcessService {
  import opened Wrappers
  import opened Sums
  import opened Seqs
  import E = Entities
  import P = ProcessStatus

  /** The lot state of a daily row that is waiting and produces no status. */
  const Waiting: string := "작업대기"

  /** The loss reason that marks a technical problem. */
  const IssueReason: string := "ISSUE"

  // ---------------------------------------------------------------------------------------------
  // Lot ids present in both lists

  /** The lot ids of the daily rows, as the `HashSet` of `getExistLotId` collects them. */
  function DailyIds(daily: seq<E.DailyRow>): set<Option<string>>
    decreases |daily|
  {
    if |daily| == 0 then {} else DailyIds(daily[..|daily| - 1]) + {daily[|daily| - 1].lotId}
  }

  /** The ids of the lot results whose id is in `ids`, in lot-result order (duplicates kept). */
  function ExistLotIds(ids: set<Option<string>>, lots: seq<E.LotResult>): (r: seq<Option<string>>)
    ensures |r| <= |lots|
    decreases |lots|
  {
    if |lots| == 0 then []
    else
      var last := lots[|lots| - 1];
      ExistLotIds(ids, lots[..|lots| - 1]) + (if last.lotId in ids then [last.lotId] else [])
  }

  /** `getExistLotId`: the lot-result ids that also occur among the daily rows, in lot-result order. */
  method GetExistLotId(daily: seq<E.DailyRow>, lots: seq<E.LotResult>) returns (list: seq<Option<string>>)
    ensures list == ExistLotIds(DailyIds(daily), lots)
  {
    var dailyIds: set<Option<string>> := {};
    for i := 0 to |daily|
      invariant dailyIds == DailyIds(daily[..i])
    {
      assert daily[..i + 1][..i] == daily[..i];
      dailyIds := dailyIds + {daily[i].lotId};
    }
    assert daily[..|daily|] == daily;
    list := [];
    for j := 0 to |lots|
      invariant list == ExistLotIds(dailyIds, lots[..j])
    {
      assert lots[..j + 1][..j] == lots[..j];
      if lots[j].lotId in dailyIds {
        list := list + [lots[j].lotId];
      }
    }
    assert lots[..|lots|] == lots;
  }

  // ---------------------------------------------------------------------------------------------
  // Which rows produce a status

  /** What a production performance status is built from: a daily row, or a lot result alone. */
  datatype Source = FromDaily(daily: E.DailyRow) | FromLot(lot: E.LotResult)

  /** The daily rows that are not waiting, in order. */
  function DailySources(daily: seq<E.DailyRow>): seq<Source>
    decreases |daily|
  {
    if |daily| == 0 then []
    else
      var last := daily[|daily| - 1];
      DailySources(daily[..|daily| - 1]) + (if last.lotState == Waiting then [] else [FromDaily(last)])
  }

  /** The lot results whose id is not among `compare`, in order. */
  function LotSources(compare: seq<Option<string>>, lots: seq<E.LotResult>): seq<Source>
    decreases |lots|
  {
    if |lots| == 0 then []
    else
      var last := lots[|lots| - 1];
      LotSources(compare, lots[..|lots| - 1]) + (if last.lotId in compare then [] else [FromLot(last)])
  }

  /** The sources of `createProductionData`: the statuses of the daily rows, then those of the other lots. */
  function ProductionSources(daily: seq<E.DailyRow>, lots: seq<E.LotResult>): seq<Source>
  {
    DailySources(daily) + LotSources(ExistLotIds(DailyIds(daily), lots), lots)
  }

  /**
   * `createProductionData`: one status for every daily row that is not waiting, then one for every
   * lot result whose id is missing from the daily list.  The result lists what each status is
   * built from.
   */
  method CreateProductionData(daily: seq<E.DailyRow>, lots: seq<E.LotResult>) returns (state: seq<Source>)
    ensures state == ProductionSources(daily, lots)
  {
    var compareLotId := GetExistLotId(daily, lots);
    state := [];
    for i := 0 to |daily|
      invariant state == DailySources(daily[..i])
    {
      assert daily[..i + 1][..i] == daily[..i];
      if daily[i].lotState != Waiting {
        state := state + [FromDaily(daily[i])];
      }
    }
    assert daily[..|daily|] == daily;
    var fromLots: seq<Source> := [];
    for j := 0 to |lots|
      invariant fromLots == LotSources(compareLotId, lots[..j])
    {
      assert lots[..j + 1][..j] == lots[..j];
      if lots[j].lotId !in compareLotId {
        fromLots := fromLots + [FromLot(lots[j])];
      }
    }
    assert lots[..|lots|] == lots;
    state := state + fromLots;
  }

  // ---------------------------------------------------------------------------------------------
  // Merging the lot results of one lot

  /** A lot-result entity, whose completed quantity `mergeLotResult` overwrites. */
  class LotRecord {
    var value: E.LotResult

    constructor (v: E.LotResult)
      ensures value == v
    {
      value := v;
    }

    /** `setOutQty`. */
    method SetOutQty(q: real)
      modifies this
      ensures value == old(value).(outQty := Some(q))
    {
      value := value.(outQty := Some(q));
    }
  }

  /** The values the records hold, in order. */
  function Values(records: seq<LotRecord>): (vs: seq<E.LotResult>)
    reads records
    ensures |vs| == |records|
    decreases |records|
  {
    if |records| == 0 then [] else Values(records[..|records| - 1]) + [records[|records| - 1].value]
  }

  function OutQtyOrZero(l: E.LotResult): real { Val(l.outQty) }

  /** The first lot result with its completed quantity replaced by the null-as-0 total of all of them. */
  function MergedLot(lots: seq<E.LotResult>): E.LotResult
    requires |lots| > 0
  {
    lots[0].(outQty := Some(SumBy(lots, OutQtyOrZero)))
  }

  /** `mergeLotResult` (called with two or more results): the first record takes the total and is returned. */
  method MergeLotResult(records: seq<LotRecord>) returns (first: LotRecord)
    requires |records| > 0
    modifies records[0]
    ensures first == records[0]
    ensures first.value == MergedLot(old(Values(records)))
  {
    var total := SumBy(Values(records), OutQtyOrZero);
    ValuesAt(records, 0);
    records[0].SetOutQty(total);
    first := records[0];
  }

  // ---------------------------------------------------------------------------------------------
  // The completed quantity of a lot result

  /**
   * `getOutQty`: a finished lot without a completed quantity reports its planned quantity, a lot
   * in production without one reports 0, and otherwise the completed quantity is returned.  `None`
   * stands for the unboxing of a null `Double`, which throws.
   */
  function GetOutQty(l: E.LotResult): (r: Option<real>)
    ensures l.outQty.Some? ==> r == l.outQty
  {
    if l.lotState == P.Completed && l.outQty.None? then l.qty
    else if l.lotState == P.InProduction && l.outQty.None? then Some(0.0)
    else l.outQty
  }

  // ---------------------------------------------------------------------------------------------
  // The report response

  /**
   * The daily process report response.  The entity-to-DTO mappers copy fields, so the rows are
   * the records themselves.
   */
  datatype Response = Response(
    productionData: seq<E.PerformanceStatus>,
    manInputManageData: seq<E.ProcessReport>,
    productionCostData: seq<E.ProcessReport>,
    techProblems: seq<E.WorkLoss>,
    stopRisks: seq<E.WorkLoss>)

  predicate IsIssue(l: E.WorkLoss) { l.lossReason == IssueReason }
  predicate NotIssue(l: E.WorkLoss) { !IsIssue(l) }

  /**
   * `createDailyProcessReportResponse`: every status row in order, the report once as man-input
   * data and once as cost data, and the losses split by reason into technical problems ("ISSUE")
   * and stop risks (every other reason).
   */
  method CreateDailyProcessReportResponse(report: E.ProcessReport, statusList: seq<E.PerformanceStatus>, losses: seq<E.WorkLoss>)
    returns (r: Response)
    ensures r.productionData == statusList
    ensures r.manInputManageData == [report] && r.productionCostData == [report]
    ensures r.techProblems == Filter(losses, IsIssue) && r.stopRisks == Filter(losses, NotIssue)
  {
    var techProblems: seq<E.WorkLoss> := [];
    var stopRisks: seq<E.WorkLoss> := [];
    for i := 0 to |losses|
      invariant techProblems == Filter(losses[..i], IsIssue)
      invariant stopRisks == Filter(losses[..i], NotIssue)
    {
      assert losses[..i + 1] == losses[..i] + [losses[i]];
      FilterSnoc(losses[..i], losses[i], IsIssue);
      FilterSnoc(losses[..i], losses[i], NotIssue);
      if losses[i].lossReason == IssueReason {
        techProblems := techProblems + [losses[i]];
      } else {
        stopRisks := stopRisks + [losses[i]];
      }
    }
    assert losses[..|losses|] == losses;
    r := Response(statusList, [report], [report], techProblems, stopRisks);
  }

  // ---------------------------------------------------------------------------------------------
  // Updating a report from a request

  /** The request of `updateAdditionalData`: the report's category and five optional new values. */
  datatype AdditionalDataRequest = AdditionalDataRequest(
    category: Option<string>,
    availableManHours: Option<real>,
    availablePersonnel: Option<real>,
    outSouringCost: Option<real>,
    overtimePersonnel: Option<real>,
    overtimeHours: Option<real>)

  /** The value the request carries for a report column; `None` for the columns it does not address. */
  function RequestValue(req: AdditionalDataRequest, f: E.ReportField): Option<real>
  {
    match f
    case AvailableManHours => req.availableManHours
    case AvailablePersonnel => req.availablePersonnel
    case ProcessInOutsourcingWorkSum => req.outSouringCost
    case OvertimePersonnel => req.overtimePersonnel
    case OvertimeManHours => req.overtimeHours
    case _ => None
  }

  function SetIfPresent(r: E.ProcessReport, f: E.ReportField, v: Option<real>): E.ProcessReport
  {
    if v.Some? then r.(values := r.values[f := v.value]) else r
  }

  /** The report after the five null-checked updates, in the order the service applies them. */
  function ApplyAdditionalData(r: E.ProcessReport, req: AdditionalDataRequest): E.ProcessReport
  {
    var r1 := SetIfPresent(r, E.AvailableManHours, req.availableManHours);
    var r2 := SetIfPresent(r1, E.AvailablePersonnel, req.availablePersonnel);
    var r3 := SetIfPresent(r2, E.ProcessInOutsourcingWorkSum, req.outSouringCost);
    var r4 := SetIfPresent(r3, E.OvertimePersonnel, req.overtimePersonnel);
    SetIfPresent(r4, E.OvertimeManHours, req.overtimeHours)
  }

  /** A saved process production report, whose `update*` setters overwrite one column each. */
  class ProcessReportEntity {
    var report: E.ProcessReport

    constructor (r: E.ProcessReport)
      ensures report == r
    {
      report := r;
    }

    method Update(f: E.ReportField, v: real)
      modifies this
      ensures report == old(report).(values := old(report).values[f := v])
    {
      report := report.(values := report.values[f := v]);
    }
  }

  /** Whether the request carries a value for any column at all. */
  predicate AddressesSomeColumn(req: AdditionalDataRequest)
  {
    req.availableManHours.Some? || req.availablePersonnel.Some? || req.outSouringCost.Some?
    || req.overtimePersonnel.Some? || req.overtimeHours.Some?
  }

  /**
   * `updateAdditionalData`: each non-null request value overwrites its column of the report
   * found for the request's category.  `entity` is that lookup's result, `null` when no report
   * exists; then the first non-null request value dereferences it and the method throws, which
   * `ok == false` stands for.  A request without values returns normally either way.
   */
  method UpdateAdditionalData(entity: ProcessReportEntity?, request: AdditionalDataRequest) returns (ok: bool)
    modifies entity
    ensures ok <==> entity != null || !AddressesSomeColumn(request)
    ensures entity != null ==> entity.report == ApplyAdditionalData(old(entity.report), request)
  {
    if entity == null {
      return !AddressesSomeColumn(request);
    }
    if request.availableManHours.Some? {
      entity.Update(E.AvailableManHours, request.availableManHours.value);
    }
    if request.availablePersonnel.Some? {
      entity.Update(E.AvailablePersonnel, request.availablePersonnel.value);
    }
    if request.outSouringCost.Some? {
      entity.Update(E.ProcessInOutsourcingWorkSum, request.outSouringCost.value);
    }
    if request.overtimePersonnel.Some? {
      entity.Update(E.OvertimePersonnel, request.overtimePersonnel.value);
    }
    if request.overtimeHours.Some? {
      entity.Update(E.OvertimeManHours, request.overtimeHours.value);
    }
    ok := true;
  }

  // ---------------------------------------------------------------------------------------------
  // Properties

  /** An id is collected exactly when some daily row carries it. */
  lemma {:induction false} DailyIdsMembers(daily: seq<E.DailyRow>)
    ensures forall x :: x in DailyIds(daily) <==> exists i :: 0 <= i < |daily| && daily[i].lotId == x
    decreases |daily|
  {
    if |daily| > 0 {
      var init := daily[..|daily| - 1];
      DailyIdsMembers(init);
      forall x | x in DailyIds(daily)
        ensures exists i :: 0 <= i < |daily| && daily[i].lotId == x
      {
        if x in DailyIds(init) {
          var i :| 0 <= i < |init| && init[i].lotId == x;
          assert daily[i].lotId == x;
        } else {
          assert daily[|daily| - 1].lotId == x;
        }
      }
      forall x | exists i :: 0 <= i < |daily| && daily[i].lotId == x
        ensures x in DailyIds(daily)
      {
        var i :| 0 <= i < |daily| && daily[i].lotId == x;
        if i < |daily| - 1 {
          assert init[i].lotId == x;
        }
      }
    }
  }

  /** The listed ids are exactly the lot-result ids that are in `ids`. */
  lemma {:induction false} ExistLotIdsMembers(ids: set<Option<string>>, lots: seq<E.LotResult>)
    ensures forall x :: x in ExistLotIds(ids, lots) <==> x in ids && exists j :: 0 <= j < |lots| && lots[j].lotId == x
    decreases |lots|
  {
    if |lots| > 0 {
      var init := lots[..|lots| - 1];
      var last := lots[|lots| - 1];
      ExistLotIdsMembers(ids, init);
      var tail := if last.lotId in ids then [last.lotId] else [];
      assert ExistLotIds(ids, lots) == ExistLotIds(ids, init) + tail;
      forall x | x in ExistLotIds(ids, lots)
        ensures x in ids && exists j :: 0 <= j < |lots| && lots[j].lotId == x
      {
        if x in ExistLotIds(ids, init) {
          var j :| 0 <= j < |init| && init[j].lotId == x;
          assert lots[j].lotId == x;
        } else {
          assert x in tail;
        }
      }
      forall x | x in ids && exists j :: 0 <= j < |lots| && lots[j].lotId == x
        ensures x in ExistLotIds(ids, lots)
      {
        var j :| 0 <= j < |lots| && lots[j].lotId == x;
        if j < |lots| - 1 {
          assert init[j].lotId == x;
        }
      }
    }
  }

  /** The ids come in lot-result order: the list of a concatenation is the concatenation of the lists. */
  lemma {:induction false} ExistLotIdsAppend(ids: set<Option<string>>, xs: seq<E.LotResult>, ys: seq<E.LotResult>)
    ensures ExistLotIds(ids, xs + ys) == ExistLotIds(ids, xs) + ExistLotIds(ids, ys)
    decreases |ys|
  {
    if |ys| == 0 {
      assert xs + ys == xs;
    } else {
      assert (xs + ys)[..|xs + ys| - 1] == xs + ys[..|ys| - 1];
      ExistLotIdsAppend(ids, xs, ys[..|ys| - 1]);
    }
  }

  /** Every daily source is a daily row that is not waiting, and every such row is a source. */
  lemma {:induction false} DailySourcesMembers(daily: seq<E.DailyRow>)
    ensures forall s :: s in DailySources(daily) ==> s.FromDaily? && s.daily in daily && s.daily.lotState != Waiting
    ensures forall d :: d in daily && d.lotState != Waiting ==> FromDaily(d) in DailySources(daily)
    decreases |daily|
  {
    if |daily| > 0 {
      DailySourcesMembers(daily[..|daily| - 1]);
      assert daily == daily[..|daily| - 1] + [daily[|daily| - 1]];
    }
  }

  /** A lot result is a source of its own exactly when its id is not in `compare`. */
  lemma {:induction false} LotSourcesMembers(compare: seq<Option<string>>, lots: seq<E.LotResult>)
    ensures forall s :: s in LotSources(compare, lots) ==> s.FromLot? && s.lot in lots && s.lot.lotId !in compare
    ensures forall l :: l in lots && l.lotId !in compare ==> FromLot(l) in LotSources(compare, lots)
    decreases |lots|
  {
    if |lots| > 0 {
      LotSourcesMembers(compare, lots[..|lots| - 1]);
      assert lots == lots[..|lots| - 1] + [lots[|lots| - 1]];
    }
  }

  /**
   * Waiting daily rows produce no status, and a lot result produces one of its own exactly when no
   * daily row, waiting or not, carries its id.
   */
  lemma ProductionSourcesRule(daily: seq<E.DailyRow>, lots: seq<E.LotResult>)
    ensures forall d :: d in daily ==> (FromDaily(d) in ProductionSources(daily, lots) <==> d.lotState != Waiting)
    ensures forall l :: l in lots ==>
              (FromLot(l) in ProductionSources(daily, lots) <==> forall i :: 0 <= i < |daily| ==> daily[i].lotId != l.lotId)
  {
    var compare := ExistLotIds(DailyIds(daily), lots);
    DailySourcesMembers(daily);
    LotSourcesMembers(compare, lots);
    DailyIdsMembers(daily);
    ExistLotIdsMembers(DailyIds(daily), lots);
    forall l | l in lots
      ensures l.lotId in compare <==> l.lotId in DailyIds(daily)
    {
      var j :| 0 <= j < |lots| && lots[j] == l;
    }
  }

  /** The merged lot keeps everything of the first result except its completed quantity, now the total. */
  lemma MergedLotTotal(lots: seq<E.LotResult>, extra: seq<E.LotResult>)
    requires |lots| > 0
    ensures MergedLot(lots).(outQty := lots[0].outQty) == lots[0]
    ensures MergedLot(lots + extra).outQty == Some(SumBy(lots, OutQtyOrZero) + SumBy(extra, OutQtyOrZero))
    ensures MergedLot([lots[0]]).outQty == Some(Val(lots[0].outQty))
  {
    SumByAppend(lots, extra, OutQtyOrZero);
    assert (lots + extra)[0] == lots[0];
    assert [lots[0]][..0] == [];
  }

  lemma {:induction false} ValuesAt(records: seq<LotRecord>, i: int)
    requires 0 <= i < |records|
    ensures Values(records)[i] == records[i].value
    decreases |records|
  {
    if i < |records| - 1 {
      ValuesAt(records[..|records| - 1], i);
    }
  }

  /**
   * The completed quantity of a lot result, case by case; where it is defined and the lot has no
   * daily row, it agrees with the status formula's completed quantity except for a finished lot
   * whose recorded quantity is 0, which the formula replaces by the planned quantity.
   */
  lemma GetOutQtyCases(l: E.LotResult)
    ensures l.lotState == P.Completed && l.outQty.None? ==> GetOutQty(l) == l.qty
    ensures l.lotState == P.InProduction && l.outQty.None? ==> GetOutQty(l) == Some(0.0)
    ensures l.lotState != P.Completed && l.lotState != P.InProduction && l.outQty.None? ==> GetOutQty(l).None?
    ensures GetOutQty(l).Some? && !(l.lotState == P.Completed && l.outQty == Some(0.0)) && !(l.lotState == P.InProduction && l.outQty.Some?)
            ==> GetOutQty(l) == Some(P.OutQty(None, Some(l)))
  {
  }

  /**
   * The losses are split without loss or duplication and in order: every technical problem has the
   * reason "ISSUE", no stop risk has it, and together they are the losses.
   */
  lemma LossPartition(losses: seq<E.WorkLoss>)
    ensures forall l :: l in Filter(losses, IsIssue) <==> l in losses && l.lossReason == IssueReason
    ensures forall l :: l in Filter(losses, NotIssue) <==> l in losses && l.lossReason != IssueReason
    ensures |Filter(losses, IsIssue)| + |Filter(losses, NotIssue)| == |losses|
    ensures multiset(Filter(losses, IsIssue)) + multiset(Filter(losses, NotIssue)) == multiset(losses)
  {
    FilterMembers(losses, IsIssue);
    FilterMembers(losses, NotIssue);
    FilterPartition(losses, IsIssue, NotIssue);
  }

  /** Each column addressed by a non-null request value takes it; every other column is unchanged. */
  lemma AdditionalDataFieldwise(r: E.ProcessReport, req: AdditionalDataRequest, f: E.ReportField)
    ensures E.Column(ApplyAdditionalData(r, req).values, f) == (if RequestValue(req, f).Some? then RequestValue(req, f) else E.Column(r.values, f))
    ensures ApplyAdditionalData(r, req).category == r.category
  {
  }

  /** Applying the same request twice changes nothing further. */
  lemma AdditionalDataIdempotent(r: E.ProcessReport, req: AdditionalDataRequest)
    ensures ApplyAdditionalData(ApplyAdditionalData(r, req), req) == ApplyAdditionalData(r, req)
  {
    var once := ApplyAdditionalData(r, req);
    var twice := ApplyAdditionalData(once, req);
    forall f | true
      ensures E.Column(twice.values, f) == E.Column(once.values, f)
    {
      AdditionalDataFieldwise(once, req, f);
      AdditionalDataFieldwise(r, req, f);
    }
    assert twice.values.Keys == once.values.Keys;
    assert twice.values == once.values;
  }
}
