/**
 * The per-process performance view: the eleven hourly slots of a daily-list row and their total,
 * the plan, input and completed quantities picked from a lot's rows by their kind ("gubun"), the
 * department and process of a lot (from its lot result, or else from its state and its model
 * name), and the grouping of the daily rows by lot.
 */
module PerformanceByProcess {
  import opened Wrappers
  import opened Rates
  import opened Seqs
  import opened Numerals

  // ---------------------------------------------------------------------------------------------
  // Integer.parseInt, with a null or empty slot read as 0

  /** `Integer.parseInt` of a nullable string; null throws as well. */
  function ParseNullable(s: Option<string>): Option<int>
  {
    if s.None? then None else ParseInt(s.value)
  }

  /** `parseOrDefault`: 0 for a null or empty slot, else the parsed number. */
  function ParseOrDefault(value: Option<string>): (r: Option<int>)
    ensures value.None? || value == Some("") ==> r == Some(0)
    ensures value.Some? && value.value != "" ==> r == ParseInt(value.value)
  {
    if value.None? || |value.value| == 0 then Some(0) else ParseInt(value.value)
  }

  // ---------------------------------------------------------------------------------------------
  // The hourly slots

  /** The eleven hourly columns `time01` .. `time11` of a daily-list row, each a nullable text. */
  datatype TimeSlots = TimeSlots(
    time01: Option<string>, time02: Option<string>, time03: Option<string>, time04: Option<string>,
    time05: Option<string>, time06: Option<string>, time07: Option<string>, time08: Option<string>,
    time09: Option<string>, time10: Option<string>, time11: Option<string>)

  /** The slot `time<k>`. */
  function Slot(t: TimeSlots, k: int): Option<string>
    requires 1 <= k <= 11
  {
    if k == 1 then t.time01 else if k == 2 then t.time02 else if k == 3 then t.time03
    else if k == 4 then t.time04 else if k == 5 then t.time05 else if k == 6 then t.time06
    else if k == 7 then t.time07 else if k == 8 then t.time08 else if k == 9 then t.time09
    else if k == 10 then t.time10 else t.time11
  }

  /** `setTimeList`: the eleven slots, `time01` first. */
  function SetTimeList(t: TimeSlots): (r: seq<Option<string>>)
    ensures |r| == 11
    ensures forall k :: 1 <= k <= 11 ==> r[k - 1] == Slot(t, k)
  {
    [t.time01, t.time02, t.time03, t.time04, t.time05, t.time06, t.time07, t.time08, t.time09, t.time10, t.time11]
  }

  /** One `+ parseOrDefault(slot)` of `setTimeTotal`, in `int` arithmetic; a failed parse aborts the sum. */
  function AddSlot(acc: Option<int>, slot: Option<string>): (r: Option<int>)
    requires acc.Some? ==> IntMin <= acc.value <= IntMax
    ensures r.Some? ==> IntMin <= r.value <= IntMax
  {
    if acc.None? then None
    else
      var v := ParseOrDefault(slot);
      if v.None? then None else Some(AddInt32(acc.value, v.value))
  }

  /** `setTimeTotal`: the eleven parsed slots added left to right. */
  function SetTimeTotal(t: TimeSlots): (r: Option<int>)
    ensures r.Some? ==> IntMin <= r.value <= IntMax
  {
    var s1 := AddSlot(Some(0), t.time01);
    var s2 := AddSlot(s1, t.time02);
    var s3 := AddSlot(s2, t.time03);
    var s4 := AddSlot(s3, t.time04);
    var s5 := AddSlot(s4, t.time05);
    var s6 := AddSlot(s5, t.time06);
    var s7 := AddSlot(s6, t.time07);
    var s8 := AddSlot(s7, t.time08);
    var s9 := AddSlot(s8, t.time09);
    var s10 := AddSlot(s9, t.time10);
    AddSlot(s10, t.time11)
  }

  /** The parsed slots of a list added left to right: the reference sum the slot total is checked against. */
  function SumParsed(list: seq<Option<string>>): (r: Option<int>)
    ensures r.Some? ==> IntMin <= r.value <= IntMax
    decreases |list|
  {
    if |list| == 0 then Some(0) else AddSlot(SumParsed(list[..|list| - 1]), list[|list| - 1])
  }

  /** The sum of the parsed values in unbounded arithmetic. */
  function PlainSum(list: seq<Option<string>>): int
    requires forall i :: 0 <= i < |list| ==> ParseOrDefault(list[i]).Some?
    decreases |list|
  {
    if |list| == 0 then 0 else PlainSum(list[..|list| - 1]) + ParseOrDefault(list[|list| - 1]).value
  }

  // ---------------------------------------------------------------------------------------------
  // Quantities by kind

  /** A row of the daily production list as this view reads it. */
  datatype DailyEntry = DailyEntry(
    lotId: string,
    lotState: string,
    gubunName: string,
    modelName: string,
    qty: Option<string>,
    outQty: Option<string>,
    defectQty: Option<string>,
    times: TimeSlots)

  const PlanGubun: string := "계획수량"
  const InputGubun: string := "투입수량"
  const CompletedGubun: string := "완료수량"

  datatype QuantityData = QuantityData(
    planData: seq<Option<string>>,
    inputData: seq<Option<string>>,
    completedData: seq<Option<string>>,
    planQty: int,
    inputQty: int,
    completedQty: int,
    defectQty: int)

  const NoQuantities: QuantityData := QuantityData([], [], [], 0, 0, 0, 0)

  /** One pass of the `switch` of `extractQuantityData`; `None` when a parse throws. */
  function Step(q: QuantityData, row: DailyEntry): Option<QuantityData>
  {
    if row.gubunName == PlanGubun then
      var n := ParseNullable(row.qty);
      if n.None? then None else Some(q.(planData := SetTimeList(row.times), planQty := n.value))
    else if row.gubunName == InputGubun then
      var n := SetTimeTotal(row.times);
      if n.None? then None else Some(q.(inputData := SetTimeList(row.times), inputQty := n.value))
    else if row.gubunName == CompletedGubun then
      var c := ParseNullable(row.outQty);
      var d := ParseNullable(row.defectQty);
      if c.None? || d.None? then None
      else Some(q.(completedData := SetTimeList(row.times), completedQty := c.value, defectQty := d.value))
    else Some(q)
  }

  /** The quantities after the rows, in order; `None` once a row's parse throws. */
  function Extract(rows: seq<DailyEntry>): Option<QuantityData>
    decreases |rows|
  {
    if |rows| == 0 then Some(NoQuantities)
    else
      var prev := Extract(rows[..|rows| - 1]);
      if prev.None? then None else Step(prev.value, rows[|rows| - 1])
  }

  /** `extractQuantityData`: the loop over the lot's rows, updating the local lists and counts. */
  method ExtractQuantityData(rows: seq<DailyEntry>) returns (r: Option<QuantityData>)
    ensures r == Extract(rows)
  {
    var planData: seq<Option<string>> := [];
    var inputData: seq<Option<string>> := [];
    var completedData: seq<Option<string>> := [];
    var planQty, inputQty, completedQty, defectQty := 0, 0, 0, 0;
    for i := 0 to |rows|
      invariant Extract(rows[..i]) == Some(QuantityData(planData, inputData, completedData, planQty, inputQty, completedQty, defectQty))
    {
      assert rows[..i + 1][..i] == rows[..i];
      var row := rows[i];
      if row.gubunName == PlanGubun {
        planData := SetTimeList(row.times);
        var n := ParseNullable(row.qty);
        if n.None? {
          ExtractFailureSticks(rows, i + 1);
          return None;
        }
        planQty := n.value;
      } else if row.gubunName == InputGubun {
        inputData := SetTimeList(row.times);
        var n := SetTimeTotal(row.times);
        if n.None? {
          ExtractFailureSticks(rows, i + 1);
          return None;
        }
        inputQty := n.value;
      } else if row.gubunName == CompletedGubun {
        completedData := SetTimeList(row.times);
        var c := ParseNullable(row.outQty);
        if c.None? {
          ExtractFailureSticks(rows, i + 1);
          return None;
        }
        completedQty := c.value;
        var d := ParseNullable(row.defectQty);
        if d.None? {
          ExtractFailureSticks(rows, i + 1);
          return None;
        }
        defectQty := d.value;
      }
    }
    assert rows[..|rows|] == rows;
    r := Some(QuantityData(planData, inputData, completedData, planQty, inputQty, completedQty, defectQty));
  }

  // ---------------------------------------------------------------------------------------------
  // Department and process

  /** The first lot result of a lot, where it exists. */
  datatype LotInfo = LotInfo(department: Option<string>, itemName: Option<string>)

  datatype ProcessInfo = ProcessInfo(depart: Option<string>, process: Option<string>, modelName: string)

  /** The department shown for a lot without a lot result, by its state; "" for any other state. */
  function DepartOf(lotState: string): string
  {
    if lotState == "작업대기" then "작업대기"
    else if lotState == "생산중" then "데이터 추가중"
    else if lotState == "생산완료" then "실적 반영 대기 중"
    else ""
  }

  /** The alternatives of the process-name pattern, in pattern order. */
  const ProcessNames: seq<string> :=
    ["SM ASSY", "IM ASSY", "DIP ASSY", "MANUAL ASSY", "PCB ASSY", "CASE ASSY", "ACCY", "PACKING ASSY", "BOARD_DIP ASSY"]

  predicate IsWordChar(c: char)
  {
    'a' <= c <= 'z' || 'A' <= c <= 'Z' || '0' <= c <= '9' || c == '_'
  }

  /** `\b` at position `i`: a word character on exactly one side. */
  predicate Boundary(s: string, i: int)
    requires 0 <= i <= |s|
  {
    (i > 0 && IsWordChar(s[i - 1])) != (i < |s| && IsWordChar(s[i]))
  }

  /** `\bname\b` matches at position `i`. */
  predicate MatchesAt(s: string, i: int, name: string)
  {
    0 <= i && i + |name| <= |s| && s[i..i + |name|] == name && Boundary(s, i) && Boundary(s, i + |name|)
  }

  /** The first alternative among `names` that matches at `i`, as the regex tries them. */
  function FirstNameAt(s: string, i: int, names: seq<string>): (r: Option<string>)
    ensures r.Some? ==> r.value in names && MatchesAt(s, i, r.value)
    decreases |names|
  {
    if |names| == 0 then None
    else if MatchesAt(s, i, names[0]) then Some(names[0])
    else FirstNameAt(s, i, names[1..])
  }

  /** `matcher.find()` from position `i`: the leftmost match and the alternative that matched. */
  function FindFrom(s: string, i: nat, names: seq<string>): Option<(nat, string)>
    decreases |s| + 1 - i
  {
    if i > |s| then None
    else
      var n := FirstNameAt(s, i, names);
      if n.Some? then Some((i, n.value)) else FindFrom(s, i + 1, names)
  }

  /** `matcher.replaceAll("")` from position `i`: the text with every successive match removed. */
  function ReplaceAllFrom(s: string, i: nat, names: seq<string>): string
    decreases |s| + 1 - i
  {
    if i >= |s| then []
    else
      var n := FirstNameAt(s, i, names);
      if n.Some? && |n.value| > 0 then ReplaceAllFrom(s, i + |n.value|, names) else [s[i]] + ReplaceAllFrom(s, i + 1, names)
  }

  /**
   * `fetchProcessInfo`: with a lot result, its department and item name; without one, the
   * department follows the lot state, and the first process name found in the model name is the
   * process and is cut, with every other match, out of the model name.
   */
  function FetchProcessInfo(lots: seq<LotInfo>, modelName: string, lotState: string): ProcessInfo
  {
    if |lots| > 0 then ProcessInfo(lots[0].department, lots[0].itemName, modelName)
    else
      var depart := DepartOf(lotState);
      var found := FindFrom(modelName, 0, ProcessNames);
      if found.Some? then ProcessInfo(Some(depart), Some(found.value.1), ReplaceAllFrom(modelName, 0, ProcessNames))
      else ProcessInfo(Some(depart), Some(""), modelName)
  }

  // ---------------------------------------------------------------------------------------------
  // One response per lot

  datatype PerformanceResponse = PerformanceResponse(
    depart: Option<string>,
    process: Option<string>,
    modelName: string,
    processStatus: string,
    quantities: QuantityData)

  /** `createPerformanceDTO`: the quantities of the lot's rows, with model and state from its first row. */
  function CreatePerformance(group: seq<DailyEntry>, lots: seq<LotInfo>): Option<PerformanceResponse>
    requires |group| > 0
  {
    var q := Extract(group);
    if q.None? then None
    else
      var info := FetchProcessInfo(lots, group[0].modelName, group[0].lotState);
      Some(PerformanceResponse(info.depart, info.process, info.modelName, group[0].lotState, q.value))
  }

  function LotIdSet(rows: seq<DailyEntry>): set<string>
  {
    set i | 0 <= i < |rows| :: rows[i].lotId
  }

  /** The rows of one lot, in their order. */
  function GroupOf(rows: seq<DailyEntry>, id: string): seq<DailyEntry>
  {
    Filter(rows, (r: DailyEntry) => r.lotId == id)
  }

  /** `groupingBy(getLotId)`: each lot id with its rows. */
  function GroupByLotId(rows: seq<DailyEntry>): map<string, seq<DailyEntry>>
  {
    map id | id in LotIdSet(rows) :: GroupOf(rows, id)
  }

  /**
   * `getPerformanceByProcessDTOS`: one response per lot id.  The lot results of a lot come from
   * `lotResults`; the order of the `HashMap` entries is not modelled, so the responses are keyed.
   */
  function PerformanceByLot(rows: seq<DailyEntry>, lotResults: string -> seq<LotInfo>): map<string, Option<PerformanceResponse>>
  {
    map id | id in LotIdSet(rows) :: GroupNonEmpty(rows, id); CreatePerformance(GroupOf(rows, id), lotResults(id))
  }

  // ---------------------------------------------------------------------------------------------
  // Properties

  /** A null or empty slot counts 0; text that is not a number makes the parse fail. */
  lemma ParseOrDefaultCases(s: string)
    ensures ParseOrDefault(None) == Some(0) && ParseOrDefault(Some("")) == Some(0)
    ensures s != "" && (exists i :: 1 <= i < |s| && !IsDigit(s[i])) ==> ParseOrDefault(Some(s)).None?
    ensures |s| > 0 && !IsDigit(s[0]) && s[0] != '-' && s[0] != '+' ==> ParseOrDefault(Some(s)).None?
  {
    if s != "" && (exists i :: 1 <= i < |s| && !IsDigit(s[i])) {
      var i :| 1 <= i < |s| && !IsDigit(s[i]);
      if s[0] == '-' || s[0] == '+' {
        assert s[1..][i - 1] == s[i];
      }
    }
  }

  lemma SumParsedSnoc(list: seq<Option<string>>, k: nat)
    requires k < |list|
    ensures SumParsed(list[..k + 1]) == AddSlot(SumParsed(list[..k]), list[k])
  {
    assert list[..k + 1][..k] == list[..k];
  }

  /** The slot total is the sum over the slot list, in list order. */
  lemma TimeTotalIsListSum(t: TimeSlots)
    ensures SetTimeTotal(t) == SumParsed(SetTimeList(t))
  {
    var l := SetTimeList(t);
    assert l[..0] == [];
    SumParsedSnoc(l, 0); SumParsedSnoc(l, 1); SumParsedSnoc(l, 2); SumParsedSnoc(l, 3);
    SumParsedSnoc(l, 4); SumParsedSnoc(l, 5); SumParsedSnoc(l, 6); SumParsedSnoc(l, 7);
    SumParsedSnoc(l, 8); SumParsedSnoc(l, 9); SumParsedSnoc(l, 10);
    assert l[..11] == l;
  }

  /** The sum fails exactly when some slot fails to parse. */
  lemma {:induction false} SumParsedFails(list: seq<Option<string>>)
    ensures SumParsed(list).None? <==> exists i :: 0 <= i < |list| && ParseOrDefault(list[i]).None?
    decreases |list|
  {
    if |list| > 0 {
      var init := list[..|list| - 1];
      SumParsedFails(init);
      if exists i :: 0 <= i < |init| && ParseOrDefault(init[i]).None? {
        var i :| 0 <= i < |init| && ParseOrDefault(init[i]).None?;
        assert list[i] == init[i];
      }
      if exists i :: 0 <= i < |list| && ParseOrDefault(list[i]).None? {
        var i :| 0 <= i < |list| && ParseOrDefault(list[i]).None?;
        if i < |list| - 1 {
          assert init[i] == list[i];
        }
      }
    }
  }

  /** When every slot parses to a value of at most `bound` and the total cannot wrap, it is the plain sum. */
  lemma {:induction false} SumParsedPlain(list: seq<Option<string>>, bound: nat)
    requires forall i :: 0 <= i < |list| ==> ParseOrDefault(list[i]).Some? && 0 <= ParseOrDefault(list[i]).value <= bound
    requires |list| * bound <= IntMax
    ensures SumParsed(list) == Some(PlainSum(list))
    ensures 0 <= PlainSum(list) <= |list| * bound
    decreases |list|
  {
    if |list| > 0 {
      var init := list[..|list| - 1];
      assert forall i :: 0 <= i < |init| ==> init[i] == list[i];
      assert |init| * bound <= |list| * bound;
      SumParsedPlain(init, bound);
      assert (|init| + 1) * bound == |list| * bound;
    }
  }

  /** Once a prefix of the rows has failed, so has every longer prefix. */
  lemma {:induction false} ExtractFailureSticks(rows: seq<DailyEntry>, k: nat)
    requires k <= |rows| && Extract(rows[..k]).None?
    ensures Extract(rows).None?
    decreases |rows| - k
  {
    if k < |rows| {
      assert rows[..k + 1][..k] == rows[..k];
      ExtractFailureSticks(rows, k + 1);
    } else {
      assert rows[..k] == rows;
    }
  }

  /** Rows of any other kind are skipped: appending them changes nothing. */
  lemma {:induction false} ExtractIgnoresOthers(xs: seq<DailyEntry>, ys: seq<DailyEntry>)
    requires forall j :: 0 <= j < |ys| ==> ys[j].gubunName !in {PlanGubun, InputGubun, CompletedGubun}
    ensures Extract(xs + ys) == Extract(xs)
    ensures Extract(ys) == Some(NoQuantities)
    decreases |ys|
  {
    if |ys| == 0 {
      assert xs + ys == xs;
    } else {
      var init := ys[..|ys| - 1];
      assert (xs + ys)[..|xs + ys| - 1] == xs + init;
      ExtractIgnoresOthers(xs, init);
      assert ys == [] + ys;
      assert ([] + ys)[..|ys| - 1] == [] + init;
      ExtractIgnoresOthers([], init);
    }
  }

  /** The part of the quantities a kind of row sets: its hourly list and its one or two counts. */
  function PartOf(q: QuantityData, g: string): (seq<Option<string>>, int, int)
  {
    if g == PlanGubun then (q.planData, q.planQty, 0)
    else if g == InputGubun then (q.inputData, q.inputQty, 0)
    else (q.completedData, q.completedQty, q.defectQty)
  }

  /** A row of kind `g` sets the part of kind `g`, and leaves the other parts alone. */
  lemma StepParts(q: QuantityData, row: DailyEntry, g: string)
    requires g in {PlanGubun, InputGubun, CompletedGubun}
    ensures row.gubunName != g && Step(q, row).Some? ==> PartOf(Step(q, row).value, g) == PartOf(q, g)
    ensures row.gubunName == g && Step(q, row).Some? ==> PartOf(Step(q, row).value, g).0 == SetTimeList(row.times)
  {
  }

  /**
   * A later row of a kind overwrites an earlier one: when the last row of kind `g` is `r`, the part
   * of kind `g` is the one `r` gave.
   */
  lemma {:induction false} LastRowWins(xs: seq<DailyEntry>, r: DailyEntry, ys: seq<DailyEntry>, g: string)
    requires g in {PlanGubun, InputGubun, CompletedGubun}
    requires r.gubunName == g
    requires forall j :: 0 <= j < |ys| ==> ys[j].gubunName != g
    requires Extract(xs + [r] + ys).Some?
    ensures Extract(xs + [r]).Some?
    ensures PartOf(Extract(xs + [r] + ys).value, g) == PartOf(Extract(xs + [r]).value, g)
    ensures PartOf(Extract(xs + [r] + ys).value, g).0 == SetTimeList(r.times)
    decreases |ys|
  {
    if |ys| == 0 {
      assert xs + [r] + ys == xs + [r];
      assert (xs + [r])[..|xs + [r]| - 1] == xs;
      StepParts(Extract(xs).value, r, g);
    } else {
      var init := ys[..|ys| - 1];
      assert (xs + [r] + ys)[..|xs + [r] + ys| - 1] == xs + [r] + init;
      LastRowWins(xs, r, init, g);
      StepParts(Extract(xs + [r] + init).value, ys[|ys| - 1], g);
    }
  }

  /** What `find` reports is the leftmost match; when it reports none, nothing matches. */
  lemma {:induction false} FindFromLeftmost(s: string, i: nat, names: seq<string>)
    ensures FindFrom(s, i, names).Some? ==>
              i <= FindFrom(s, i, names).value.0
              && FirstNameAt(s, FindFrom(s, i, names).value.0, names) == Some(FindFrom(s, i, names).value.1)
              && forall q :: i <= q < FindFrom(s, i, names).value.0 ==> FirstNameAt(s, q, names).None?
    ensures FindFrom(s, i, names).None? ==> forall q :: i <= q <= |s| ==> FirstNameAt(s, q, names).None?
    decreases |s| + 1 - i
  {
    if i <= |s| && FirstNameAt(s, i, names).None? {
      FindFromLeftmost(s, i + 1, names);
      assert FindFrom(s, i, names) == FindFrom(s, i + 1, names);
    }
  }

  /** An alternative is reported missing only when none of them matches there. */
  lemma {:induction false} FirstNameAtNone(s: string, i: int, names: seq<string>)
    ensures FirstNameAt(s, i, names).None? <==> forall k :: 0 <= k < |names| ==> !MatchesAt(s, i, names[k])
    decreases |names|
  {
    if |names| > 0 {
      FirstNameAtNone(s, i, names[1..]);
      assert forall k :: 1 <= k < |names| ==> names[1..][k - 1] == names[k];
    }
  }

  /** Without a match, the model name is left as it is. */
  lemma {:induction false} ReplaceAllWithoutMatch(s: string, i: nat, names: seq<string>)
    requires i <= |s|
    requires forall q :: i <= q <= |s| ==> FirstNameAt(s, q, names).None?
    ensures ReplaceAllFrom(s, i, names) == s[i..]
    decreases |s| - i
  {
    if i < |s| {
      ReplaceAllWithoutMatch(s, i + 1, names);
      assert s[i..] == [s[i]] + s[i + 1..];
    }
  }

  /** Removal keeps the text before the first match and continues right after it. */
  lemma {:induction false} ReplaceAllCutsFirstMatch(s: string, i: nat, names: seq<string>)
    requires i <= |s|
    requires forall k :: 0 <= k < |names| ==> |names[k]| > 0
    requires FindFrom(s, i, names).Some?
    ensures var (p, n) := FindFrom(s, i, names).value;
            i <= p && p + |n| <= |s| && ReplaceAllFrom(s, i, names) == s[i..p] + ReplaceAllFrom(s, p + |n|, names)
    decreases |s| - i
  {
    var n := FirstNameAt(s, i, names);
    if n.None? {
      assert i < |s|;
      ReplaceAllCutsFirstMatch(s, i + 1, names);
      var (p, m) := FindFrom(s, i, names).value;
      assert s[i..p] == [s[i]] + s[i + 1..p];
    } else {
      assert s[i..i] == [];
      var k :| 0 <= k < |names| && names[k] == n.value;
    }
  }

  /**
   * The fallback of `fetchProcessInfo`: with a lot result its fields are used as they are; without
   * one, the department follows the state and a model name without a process name is unchanged,
   * with an empty process.
   */
  lemma FetchProcessInfoCases(lots: seq<LotInfo>, modelName: string, lotState: string)
    ensures |lots| > 0 ==> FetchProcessInfo(lots, modelName, lotState) == ProcessInfo(lots[0].department, lots[0].itemName, modelName)
    ensures |lots| == 0 ==> FetchProcessInfo(lots, modelName, lotState).depart == Some(DepartOf(lotState))
    ensures |lots| == 0 && FindFrom(modelName, 0, ProcessNames).None? ==> FetchProcessInfo(lots, modelName, lotState) == ProcessInfo(Some(DepartOf(lotState)), Some(""), modelName)
    ensures |lots| == 0 && FindFrom(modelName, 0, ProcessNames).Some? ==>
              FetchProcessInfo(lots, modelName, lotState).process == Some(FindFrom(modelName, 0, ProcessNames).value.1)
              && FetchProcessInfo(lots, modelName, lotState).process.value in ProcessNames
    ensures DepartOf("작업대기") == "작업대기" && DepartOf("생산중") == "데이터 추가중" && DepartOf("생산완료") == "실적 반영 대기 중"
  {
    if |lots| == 0 {
      FindFromLeftmost(modelName, 0, ProcessNames);
      if FindFrom(modelName, 0, ProcessNames).None? {
        ReplaceAllWithoutMatch(modelName, 0, ProcessNames);
      }
    }
  }

  lemma GroupNonEmpty(rows: seq<DailyEntry>, id: string)
    requires id in LotIdSet(rows)
    ensures |GroupOf(rows, id)| > 0
  {
    var i :| 0 <= i < |rows| && rows[i].lotId == id;
    FilterMembers(rows, (r: DailyEntry) => r.lotId == id);
    assert rows[i] in GroupOf(rows, id);
  }

  /**
   * The response of a lot is built from the lot's first row: a response exists exactly when the
   * lot's rows parse, and it carries that row's lot state and the process information fetched
   * for that row's model name and state.
   */
  lemma LotResponseFromFirstRow(rows: seq<DailyEntry>, lotResults: string -> seq<LotInfo>, j: nat)
    requires j < |rows|
    requires forall k :: 0 <= k < j ==> rows[k].lotId != rows[j].lotId
    ensures rows[j].lotId in PerformanceByLot(rows, lotResults)
    ensures var r := PerformanceByLot(rows, lotResults)[rows[j].lotId];
            var info := FetchProcessInfo(lotResults(rows[j].lotId), rows[j].modelName, rows[j].lotState);
            (r.Some? <==> Extract(GroupOf(rows, rows[j].lotId)).Some?)
            && (r.Some? ==> r.value.processStatus == rows[j].lotState && r.value.quantities == Extract(GroupOf(rows, rows[j].lotId)).value
                            && r.value.depart == info.depart && r.value.process == info.process && r.value.modelName == info.modelName)
  {
    var id := rows[j].lotId;
    assert id in LotIdSet(rows);
    FilterFirst(rows, (r: DailyEntry) => r.lotId == id, j);
    assert GroupOf(rows, id)[0] == rows[j];
  }

  /**
   * One response per distinct lot id; each group holds exactly the rows of its lot, in order, and
   * every row is in the group of its lot.
   */
  lemma GroupByLotIdPartition(rows: seq<DailyEntry>, lotResults: string -> seq<LotInfo>)
    ensures PerformanceByLot(rows, lotResults).Keys == GroupByLotId(rows).Keys == LotIdSet(rows)
    ensures |LotIdSet(rows)| <= |rows|
    ensures forall id :: id in GroupByLotId(rows) ==>
              |GroupByLotId(rows)[id]| > 0 && forall r :: r in GroupByLotId(rows)[id] <==> r in rows && r.lotId == id
    ensures forall i :: 0 <= i < |rows| ==> rows[i].lotId in GroupByLotId(rows) && rows[i] in GroupByLotId(rows)[rows[i].lotId]
  {
    forall id | id in GroupByLotId(rows)
      ensures |GroupByLotId(rows)[id]| > 0 && forall r :: r in GroupByLotId(rows)[id] <==> r in rows && r.lotId == id
    {
      GroupNonEmpty(rows, id);
      FilterMembers(rows, (r: DailyEntry) => r.lotId == id);
    }
    forall i | 0 <= i < |rows|
      ensures rows[i].lotId in GroupByLotId(rows) && rows[i] in GroupByLotId(rows)[rows[i].lotId]
    {
      var id := rows[i].lotId;
      FilterMembers(rows, (r: DailyEntry) => r.lotId == id);
    }
    LotIdSetSize(rows);
  }

  lemma {:induction false} LotIdSetSize(rows: seq<DailyEntry>)
    ensures |LotIdSet(rows)| <= |rows|
    decreases |rows|
  {
    if |rows| > 0 {
      var init := rows[..|rows| - 1];
      LotIdSetSize(init);
      assert LotIdSet(rows) == LotIdSet(init) + {rows[|rows| - 1].lotId} by {
        forall x | x in LotIdSet(rows) ensures x in LotIdSet(init) + {rows[|rows| - 1].lotId} {
          var i :| 0 <= i < |rows| && rows[i].lotId == x;
          if i < |rows| - 1 { assert init[i].lotId == x; }
        }
        forall x | x in LotIdSet(init) ensures x in LotIdSet(rows) {
          var i :| 0 <= i < |init| && init[i].lotId == x;
          assert rows[i].lotId == x;
        }
      }
    }
  }
}
