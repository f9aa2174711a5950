# Daeho manufacturing dashboard: a Dafny model of its reporting core

The system is a manufacturing reporting dashboard. A Spring backend collects production, loss, stock and
purchase data and computes daily process reports and daily main reports from them. Excel export
services write these reports into workbook templates. A React front end shows the reports as
column trees, which can be filtered per role and hidden column by column.

This project models the parts of that system that compute something rather than move data:

- **Report formulas.** These cover the process report (man-hours, status, production cost), the main report (man input,
  production cost, attendance, manufacturing cost) and the process-stock formula. They are sums that
  read a null field as 0, derived totals, and rates guarded against a zero denominator.
- **Aggregation and merging.** These cover the first-non-null merge of report records, the purchase
  response rows (construction, weekly and monthly totals, merging), and the
  bucketing of "ACCY"/"제품" rows. They also cover the lot-id filtering and lot merging of the daily process report service,
  the performance-by-process extraction, the flow service's rates and de-duplication,
  and the total rows of the front end.
- **Excel export layout.** This covers the cell-address map, the signature cells, the loss table and its summary, the
  process-report and process-stock sheets (row numbering, row placement, totals) and the total rows
  of the purchase export.
- **Column trees of the front end.** This covers the visibility map and its toggling, the checkbox list, the
  per-role column filter, and grouping by category.
- **Small selection functions.** These cover Bearer-token extraction and the authenticate-if-valid filter,
  refresh-cookie lookup with the 403/401 choice, client-IP selection, access-log page names, the
  mail log digest, and the role names.

Each source file is one module. Pure code (the formula classes, the filters, the
selection functions) is written as functions whose properties are lemmas. Code that works by
updating state is written as imperative Dafny:
- the front-end total loops, the grouping reduce, the Excel loops and the log counter are methods with loops, proved against specification functions;
- the DTOs that change their own fields, the visibility state, the security context and the cell map are classes.

Java `Double` is `real`. A nullable value is an `Option`. An exception that the code can throw is a `None` or a
`Failure` result. `Math.round`, the narrowing `intValue` and 32-bit `int` addition are written out in `Rates`.
Shared modules are:
- `Wrappers` (Option/Result);
- `Sums` (left-to-right null-as-0 sums);
- `Seqs` (filters);
- `Strings` (Java's `split`);
- `Numerals` (`Integer.parseInt` and `Integer.toString`);
- `ColumnDefs` (the column tree shared by the front-end modules);
- `Entities` and `PurchaseFields` (the records the services read).

Source paths below are relative to the repository root.

## Model

| member | source | states |
|---|---|---|
| Util.CheckNullAndSetDefault | be_daeho/src/main/java/codehows/com/daehoint/config/Util.java:30-34 | the default when the object is null or the getter yields null, the getter's value otherwise |
| Util.FirstNonNull | be_daeho/src/main/java/codehows/com/daehoint/config/Util.java:68 | a merged field is the first record's value unless it is null, then the second's |
| Util.AllNull | be_daeho/src/main/java/codehows/com/daehoint/config/Util.java:63 | a builder with nothing set has every field null |
| Util.MergeReports | be_daeho/src/main/java/codehows/com/daehoint/config/Util.java:62-79 | the loop over the declared fields yields, field by field, the first non-null value (the same loop as mergeMainProductionReport at 88-105) |
| Util.MergeWithAllNull | be_daeho/src/main/java/codehows/com/daehoint/config/Util.java:68 | merging with an all-null record gives the other record back, on either side |
| Util.MergeIdempotent | be_daeho/src/main/java/codehows/com/daehoint/config/Util.java:94 | merge(a, a) = a |
| Util.MergeAssociative | be_daeho/src/main/java/codehows/com/daehoint/config/Util.java:94 | merge(merge(a, b), c) = merge(a, merge(b, c)) |
| Util.PrimitiveFieldsFromFirst | be_daeho/src/main/java/codehows/com/daehoint/config/Util.java:94 | a primitive field is never null, so the merge keeps the first record's value and stays well formed |
| Attendance.WTotalAppend | be_daeho/src/main/java/codehows/com/daehoint/formula/DailyMainReportAttendanceFormula.java:25-50 | a column total (null as 0) over two runs of rows is the sum of their totals |
| Attendance.IndirectManHoursAppend | be_daeho/src/main/java/codehows/com/daehoint/formula/DailyMainReportAttendanceFormula.java:58-62 | indirect man-hours, the sum of managing personnel × work time, add up over a split of the rows |
| Attendance.PersonnelCountsTruncate | be_daeho/src/main/java/codehows/com/daehoint/formula/DailyMainReportAttendanceFormula.java:25-30 | a personnel count is its column total with the fraction dropped |
| Attendance.TotalPersonnelIsSum | be_daeho/src/main/java/codehows/com/daehoint/formula/DailyMainReportAttendanceFormula.java:53-55 | the total personnel is the sum of the four counts while that sum stays in the int range |
| Attendance.TotalPersonnelWraps | be_daeho/src/main/java/codehows/com/daehoint/formula/DailyMainReportAttendanceFormula.java:53-55 | four counts at the top of the int range wrap to -4 |
| Attendance.PartTimeFiguresCoincide | be_daeho/src/main/java/codehows/com/daehoint/formula/DailyMainReportAttendanceFormula.java:89-99 | the direct and indirect part-time count and hours read the same columns (also 138-147), so they agree |
| Attendance.TotalManComposition | be_daeho/src/main/java/codehows/com/daehoint/formula/DailyMainReportAttendanceFormula.java:161-194 | totalMan = the three headcounts minus every leave figure, the part-time count taken twice |
| Attendance.TotalTimeComposition | be_daeho/src/main/java/codehows/com/daehoint/formula/DailyMainReportAttendanceFormula.java:166-198 | totalTime = the man-hours minus every leave-hour figure, the part-time hours taken twice |
| Attendance.ProductionPersonnel | be_daeho/src/main/java/codehows/com/daehoint/formula/DailyMainReportAttendanceFormula.java:25-29 | no contract; stated by Attendance.PersonnelCountsTruncate, Attendance.TotalPersonnelIsSum, Attendance.TotalManComposition |
| Attendance.DirectPersonnel | be_daeho/src/main/java/codehows/com/daehoint/formula/DailyMainReportAttendanceFormula.java:32-36 | no contract; stated by Attendance.TotalPersonnelIsSum, Attendance.TotalManComposition |
| Attendance.SupportPersonnel | be_daeho/src/main/java/codehows/com/daehoint/formula/DailyMainReportAttendanceFormula.java:39-43 | no contract; stated by Attendance.TotalPersonnelIsSum, Attendance.TotalManComposition |
| Attendance.EtcPersonnel | be_daeho/src/main/java/codehows/com/daehoint/formula/DailyMainReportAttendanceFormula.java:46-50 | no contract; stated by Attendance.TotalPersonnelIsSum, Attendance.TotalManComposition |
| Attendance.TotalPersonnel | be_daeho/src/main/java/codehows/com/daehoint/formula/DailyMainReportAttendanceFormula.java:53-55 | no contract; stated by Attendance.TotalPersonnelIsSum, Attendance.TotalPersonnelWraps |
| Attendance.IndirectManHours | be_daeho/src/main/java/codehows/com/daehoint/formula/DailyMainReportAttendanceFormula.java:58-62 | no contract; stated by Attendance.IndirectManHoursAppend, Attendance.TotalTimeComposition, Attendance.TotalManHoursAppend |
| Attendance.DirectManHours | be_daeho/src/main/java/codehows/com/daehoint/formula/DailyMainReportAttendanceFormula.java:65-68 | no contract; stated by Attendance.TotalTimeComposition, Attendance.TotalManHoursAppend |
| Attendance.TotalManHours | be_daeho/src/main/java/codehows/com/daehoint/formula/DailyMainReportAttendanceFormula.java:71-73 | no contract; stated by Attendance.TotalManHoursAppend |
| Attendance.DirectYearlyLeavePersonnel | be_daeho/src/main/java/codehows/com/daehoint/formula/DailyMainReportAttendanceFormula.java:76-80 | no contract; stated by Attendance.TotalManComposition |
| Attendance.DirectYearlyLeaveHours | be_daeho/src/main/java/codehows/com/daehoint/formula/DailyMainReportAttendanceFormula.java:83-87 | no contract; stated by Attendance.TotalTimeComposition |
| Attendance.DirectPartTimePersonnel | be_daeho/src/main/java/codehows/com/daehoint/formula/DailyMainReportAttendanceFormula.java:90-93 | no contract; stated by Attendance.PartTimeFiguresCoincide, Attendance.TotalManComposition |
| Attendance.DirectPartTimeHours | be_daeho/src/main/java/codehows/com/daehoint/formula/DailyMainReportAttendanceFormula.java:96-99 | no contract; stated by Attendance.PartTimeFiguresCoincide, Attendance.TotalTimeComposition |
| Attendance.DirectEtcPersonnel | be_daeho/src/main/java/codehows/com/daehoint/formula/DailyMainReportAttendanceFormula.java:102-105 | no contract; stated by Attendance.TotalManComposition |
| Attendance.DirectEtcPersonnelTime | be_daeho/src/main/java/codehows/com/daehoint/formula/DailyMainReportAttendanceFormula.java:108-111 | no contract; stated by Attendance.TotalTimeComposition |
| Attendance.DirectTotalPersonnel | be_daeho/src/main/java/codehows/com/daehoint/formula/DailyMainReportAttendanceFormula.java:114-117 | no contract; stated by Attendance.TotalManComposition |
| Attendance.DirectTotalPersonnelTime | be_daeho/src/main/java/codehows/com/daehoint/formula/DailyMainReportAttendanceFormula.java:120-123 | no contract; stated by Attendance.TotalTimeComposition |
| Attendance.SubYearlyLeavePersonnel | be_daeho/src/main/java/codehows/com/daehoint/formula/DailyMainReportAttendanceFormula.java:126-129 | no contract; stated by Attendance.TotalManComposition |
| Attendance.SubYearlyLeaveHours | be_daeho/src/main/java/codehows/com/daehoint/formula/DailyMainReportAttendanceFormula.java:132-135 | no contract; stated by Attendance.TotalTimeComposition |
| Attendance.SubPartTimePersonnel | be_daeho/src/main/java/codehows/com/daehoint/formula/DailyMainReportAttendanceFormula.java:138-141 | no contract; stated by Attendance.PartTimeFiguresCoincide, Attendance.TotalManComposition |
| Attendance.SubPartTimeHours | be_daeho/src/main/java/codehows/com/daehoint/formula/DailyMainReportAttendanceFormula.java:144-147 | no contract; stated by Attendance.PartTimeFiguresCoincide, Attendance.TotalTimeComposition |
| Attendance.SubTotalPersonnel | be_daeho/src/main/java/codehows/com/daehoint/formula/DailyMainReportAttendanceFormula.java:150-152 | no contract; stated by Attendance.TotalManComposition |
| Attendance.SubTotalHours | be_daeho/src/main/java/codehows/com/daehoint/formula/DailyMainReportAttendanceFormula.java:155-157 | no contract; stated by Attendance.TotalTimeComposition |
| Attendance.DirectMan | be_daeho/src/main/java/codehows/com/daehoint/formula/DailyMainReportAttendanceFormula.java:161-163 | no contract; stated by Attendance.TotalManComposition |
| Attendance.DirectTime | be_daeho/src/main/java/codehows/com/daehoint/formula/DailyMainReportAttendanceFormula.java:166-168 | no contract; stated by Attendance.TotalTimeComposition |
| Attendance.SubMan | be_daeho/src/main/java/codehows/com/daehoint/formula/DailyMainReportAttendanceFormula.java:171-173 | no contract; stated by Attendance.TotalManComposition |
| Attendance.SubTime | be_daeho/src/main/java/codehows/com/daehoint/formula/DailyMainReportAttendanceFormula.java:176-178 | no contract; stated by Attendance.TotalTimeComposition |
| Attendance.EtcMan | be_daeho/src/main/java/codehows/com/daehoint/formula/DailyMainReportAttendanceFormula.java:181-183 | no contract; stated by Attendance.TotalManComposition |
| Attendance.EtcTime | be_daeho/src/main/java/codehows/com/daehoint/formula/DailyMainReportAttendanceFormula.java:186-189 | no contract; stated by Attendance.TotalTimeComposition |
| Attendance.TotalMan | be_daeho/src/main/java/codehows/com/daehoint/formula/DailyMainReportAttendanceFormula.java:192-194 | no contract; stated by Attendance.TotalManComposition |
| Attendance.TotalTime | be_daeho/src/main/java/codehows/com/daehoint/formula/DailyMainReportAttendanceFormula.java:197-199 | no contract; stated by Attendance.TotalTimeComposition |
| Attendance.TotalManHoursAppend | be_daeho/src/main/java/codehows/com/daehoint/formula/DailyMainReportAttendanceFormula.java:58-73 | total man-hours, indirect plus direct, of two concatenated worker lists are the sum of the two lists' totals |
| DailyProcessService.GetExistLotId | be_daeho/src/main/java/codehows/com/daehoint/service/DailyProcessReportService.java:139-152 | the returned ids are those of the lot results, in lot-result order and with repeats, whose id is carried by some daily row |
| DailyProcessService.DailyIdsMembers | be_daeho/src/main/java/codehows/com/daehoint/service/DailyProcessReportService.java:140-143 | an id is in the collected set exactly when some daily row carries it |
| DailyProcessService.ExistLotIdsMembers | be_daeho/src/main/java/codehows/com/daehoint/service/DailyProcessReportService.java:144-149 | an id is listed exactly when it is in the set and some lot result carries it |
| DailyProcessService.ExistLotIdsAppend | be_daeho/src/main/java/codehows/com/daehoint/service/DailyProcessReportService.java:145-149 | the list of a concatenation of lot results is the concatenation of the lists: the lot-result order is kept |
| DailyProcessService.CreateProductionData | be_daeho/src/main/java/codehows/com/daehoint/service/DailyProcessReportService.java:104-137 | one status per daily row that is not waiting ("작업대기"), in order, followed by one per lot result whose id is not among the existing ids, in order |
| DailyProcessService.DailySourcesMembers | be_daeho/src/main/java/codehows/com/daehoint/service/DailyProcessReportService.java:116-124 | every daily-built status comes from a daily row that is not waiting, and every such row yields one |
| DailyProcessService.LotSourcesMembers | be_daeho/src/main/java/codehows/com/daehoint/service/DailyProcessReportService.java:127-134 | a lot result yields a status of its own exactly when its id is not in the compared list |
| DailyProcessService.ProductionSourcesRule | be_daeho/src/main/java/codehows/com/daehoint/service/DailyProcessReportService.java:113-134 | a waiting daily row yields no status; a lot result yields its own status exactly when no daily row, waiting or not, carries its id |
| DailyProcessService.LotRecord.SetOutQty | be_daeho/src/main/java/codehows/com/daehoint/service/DailyProcessReportService.java:198 | only the completed quantity of the lot result changes |
| DailyProcessService.MergeLotResult | be_daeho/src/main/java/codehows/com/daehoint/service/DailyProcessReportService.java:190-200 | the first record is returned, holding the first result with its completed quantity replaced by the total of all completed quantities, null counted as 0 |
| DailyProcessService.MergedLotTotal | be_daeho/src/main/java/codehows/com/daehoint/service/DailyProcessReportService.java:190-200 | the merged lot differs from the first result only in the completed quantity; that quantity is additive over the merged results and a single result keeps its own value, null becoming 0 |
| DailyProcessService.GetOutQty | be_daeho/src/main/java/codehows/com/daehoint/service/DailyProcessReportService.java:215-223 | a recorded completed quantity is returned as it is |
| DailyProcessService.GetOutQtyCases | be_daeho/src/main/java/codehows/com/daehoint/service/DailyProcessReportService.java:215-223 | a finished lot ("생산완료") without a completed quantity reports its planned quantity, a lot in production ("생산중") without one reports 0, any other state without one throws; otherwise it agrees with the status formula's completed quantity |
| DailyProcessService.CreateDailyProcessReportResponse | be_daeho/src/main/java/codehows/com/daehoint/service/DailyProcessReportService.java:504-533 | the status rows in order, the report once as man-input data and once as cost data, the losses with reason "ISSUE" as technical problems and all others as stop risks, each in order |
| DailyProcessService.LossPartition | be_daeho/src/main/java/codehows/com/daehoint/service/DailyProcessReportService.java:520-526 | technical problems and stop risks partition the losses: membership by reason, the lengths add up and the multisets add up to the losses |
| DailyProcessService.ProcessReportEntity.Update | be_daeho/src/main/java/codehows/com/daehoint/service/DailyProcessReportService.java:544-556 | one column of the report takes the new value, nothing else changes |
| DailyProcessService.UpdateAdditionalData | be_daeho/src/main/java/codehows/com/daehoint/service/DailyProcessReportService.java:538-558 | without a report for the category the method throws (`ok` false) exactly when the request carries some value; with a report, the report becomes the old report with the five null-checked request values applied in the service's order |
| DailyProcessService.AdditionalDataFieldwise | be_daeho/src/main/java/codehows/com/daehoint/service/DailyProcessReportService.java:543-557 | every column addressed by a non-null request value takes that value; every other column and the category are unchanged |
| DailyProcessService.AdditionalDataIdempotent | be_daeho/src/main/java/codehows/com/daehoint/service/DailyProcessReportService.java:543-557 | applying the same request a second time changes nothing further |
| DailyProcessService.ExistLotIds | be_daeho/src/main/java/codehows/com/daehoint/service/DailyProcessReportService.java:144-149 | at most one entry per lot result |
| DailyProcessService.DailyIds | be_daeho/src/main/java/codehows/com/daehoint/service/DailyProcessReportService.java:140-143 | no contract; stated by DailyProcessService.DailyIdsMembers |
| DailyProcessService.ProductionSources | be_daeho/src/main/java/codehows/com/daehoint/service/DailyProcessReportService.java:113-134 | no contract; stated by DailyProcessService.ProductionSourcesRule |
| DailyProcessService.ApplyAdditionalData | be_daeho/src/main/java/codehows/com/daehoint/service/DailyProcessReportService.java:543-557 | no contract; stated by DailyProcessService.AdditionalDataFieldwise, DailyProcessService.AdditionalDataIdempotent |
| ProcessStatus.InputWithoutDailyList | be_daeho/src/main/java/codehows/com/daehoint/formula/DailyProcessReportStatusFormula.java:35-38 | without a daily row the input quantity is the completed plus the defective quantity of the lot result |
| ProcessStatus.DailyRowDecides | be_daeho/src/main/java/codehows/com/daehoint/formula/DailyProcessReportStatusFormula.java:26-66 | when a daily row is present it alone gives the planned, input, defective and completed quantities; the lot result is ignored |
| ProcessStatus.OutQtyWithoutDailyList | be_daeho/src/main/java/codehows/com/daehoint/formula/DailyProcessReportStatusFormula.java:53-62 | without a daily row: a finished lot ("생산완료") with a null or 0 completed quantity reports its planned quantity, a lot in production ("생산중") reports 0, and otherwise the recorded completed quantity |
| ProcessStatus.RatesRounded | be_daeho/src/main/java/codehows/com/daehoint/formula/DailyProcessReportStatusFormula.java:69-76 | the defect and achievement rates are 0 without a denominator and otherwise the percentage rounded half up, within one half of the exact percentage |
| ProcessStatus.WorkInProgressSign | be_daeho/src/main/java/codehows/com/daehoint/formula/DailyProcessReportStatusFormula.java:79-81 | work in progress is completed minus input, negative exactly when more went in than came out |
| ProcessStatus.ProcessingCostCases | be_daeho/src/main/java/codehows/com/daehoint/formula/DailyProcessReportStatusFormula.java:84-96 | the parts list's processing cost when it is non-zero; with a zero cost the lot's standard time at 4.5; 0 without a lot or without a parts list |
| ProcessStatus.PerformanceAmountSplits | be_daeho/src/main/java/codehows/com/daehoint/formula/DailyProcessReportStatusFormula.java:99-121 | the total performance amount is the performance material cost plus the performance processing cost |
| ProcessStatus.Qty | be_daeho/src/main/java/codehows/com/daehoint/formula/DailyProcessReportStatusFormula.java:26-32 | no contract; stated by ProcessStatus.DailyRowDecides |
| ProcessStatus.InputQty | be_daeho/src/main/java/codehows/com/daehoint/formula/DailyProcessReportStatusFormula.java:35-41 | no contract; stated by ProcessStatus.InputWithoutDailyList, ProcessStatus.DailyRowDecides |
| ProcessStatus.DefectQty | be_daeho/src/main/java/codehows/com/daehoint/formula/DailyProcessReportStatusFormula.java:44-50 | no contract; stated by ProcessStatus.InputWithoutDailyList, ProcessStatus.DailyRowDecides |
| ProcessStatus.OutQty | be_daeho/src/main/java/codehows/com/daehoint/formula/DailyProcessReportStatusFormula.java:53-66 | no contract; stated by ProcessStatus.InputWithoutDailyList, ProcessStatus.DailyRowDecides, ProcessStatus.OutQtyWithoutDailyList |
| ProcessStatus.DefectRate | be_daeho/src/main/java/codehows/com/daehoint/formula/DailyProcessReportStatusFormula.java:69-71 | no contract; stated by ProcessStatus.RatesRounded |
| ProcessStatus.AchievementRate | be_daeho/src/main/java/codehows/com/daehoint/formula/DailyProcessReportStatusFormula.java:74-76 | no contract; stated by ProcessStatus.RatesRounded |
| ProcessStatus.WorkInProgressQty | be_daeho/src/main/java/codehows/com/daehoint/formula/DailyProcessReportStatusFormula.java:79-81 | no contract; stated by ProcessStatus.WorkInProgressSign |
| ProcessStatus.CalcProcessingCost | be_daeho/src/main/java/codehows/com/daehoint/formula/DailyProcessReportStatusFormula.java:84-96 | no contract; stated by ProcessStatus.ProcessingCostCases |
| ProcessStatus.SubTotal | be_daeho/src/main/java/codehows/com/daehoint/formula/DailyProcessReportStatusFormula.java:99-101 | no contract; stated by ProcessStatus.PerformanceAmountSplits, ProcessStatus.NothingCompletedIsWorthNothing |
| ProcessStatus.TotalProduction | be_daeho/src/main/java/codehows/com/daehoint/formula/DailyProcessReportStatusFormula.java:104-106 | no contract; stated by ProcessStatus.NothingCompletedIsWorthNothing |
| ProcessStatus.PerformanceMaterialCost | be_daeho/src/main/java/codehows/com/daehoint/formula/DailyProcessReportStatusFormula.java:109-111 | no contract; stated by ProcessStatus.PerformanceAmountSplits, ProcessStatus.NothingCompletedIsWorthNothing |
| ProcessStatus.PerformanceProcessingCost | be_daeho/src/main/java/codehows/com/daehoint/formula/DailyProcessReportStatusFormula.java:114-116 | no contract; stated by ProcessStatus.PerformanceAmountSplits, ProcessStatus.NothingCompletedIsWorthNothing |
| ProcessStatus.TotalPerformanceAmount | be_daeho/src/main/java/codehows/com/daehoint/formula/DailyProcessReportStatusFormula.java:119-121 | no contract; stated by ProcessStatus.PerformanceAmountSplits, ProcessStatus.NothingCompletedIsWorthNothing |
| ProcessStatus.NothingCompletedIsWorthNothing | be_daeho/src/main/java/codehows/com/daehoint/formula/DailyProcessReportStatusFormula.java:99-121 | with a completed quantity of 0 the production value, both performance costs and the performance amount are 0 |
| ProcessCost.ListSumsAdditive | be_daeho/src/main/java/codehows/com/daehoint/formula/DailyProcessReportProductionCostFormula.java:46-157 | the material, processing, defective-quantity, defective-cost and estimate sums over the status rows are additive over concatenation and 0 for no rows |
| ProcessCost.NullRowAddsNothing | be_daeho/src/main/java/codehows/com/daehoint/formula/DailyProcessReportProductionCostFormula.java:46-157 | a status row whose columns are null counts as 0 in every sum |
| ProcessCost.StopAndNonproductiveCases | be_daeho/src/main/java/codehows/com/daehoint/formula/DailyProcessReportProductionCostFormula.java:101-104 | the stop plus non-productive hours when both are recorded, and 0 as soon as either is null |
| ProcessCost.TotalCostParts | be_daeho/src/main/java/codehows/com/daehoint/formula/DailyProcessReportProductionCostFormula.java:107-126 | the total loss cost is defect cost plus stop and rework costs, and at one man rate the stop and rework hours can be added first |
| ProcessCost.PlaceholdersAreZero | be_daeho/src/main/java/codehows/com/daehoint/formula/DailyProcessReportProductionCostFormula.java:129-151 | the five manufacturing-expense figures are all 0 |
| ProcessCost.RatesGuarded | be_daeho/src/main/java/codehows/com/daehoint/formula/DailyProcessReportProductionCostFormula.java:173-190 | the profit, loss, material and processing rates are 0 when their denominator is 0 |
| ProcessCost.MaterialAndProcessingShares | be_daeho/src/main/java/codehows/com/daehoint/formula/DailyProcessReportProductionCostFormula.java:61-84 | for a non-zero actual sum the material rate and the processing rate add up to 100 |
| ProcessCost.InputAmountCases | be_daeho/src/main/java/codehows/com/daehoint/formula/DailyProcessReportProductionCostFormula.java:160-165 | no present report gives an input amount of 0; a report without available man-hours gives outsourcing plus processing |
| ProcessCost.OutsourcingCarriedOver | be_daeho/src/main/java/codehows/com/daehoint/formula/DailyProcessReportProductionCostFormula.java:72-74 | the outsourcing sum is the previous report's, 0 without a previous report or when its value is null |
| ProcessCost.TotalProductionMaterialCostSum | be_daeho/src/main/java/codehows/com/daehoint/formula/DailyProcessReportProductionCostFormula.java:46-50 | no contract; stated by ProcessCost.ListSumsAdditive, ProcessCost.NullRowAddsNothing |
| ProcessCost.MaterialTotalSum | be_daeho/src/main/java/codehows/com/daehoint/formula/DailyProcessReportProductionCostFormula.java:61-63 | no contract; stated by ProcessCost.ActualSumOfParts |
| ProcessCost.TotalProductionProcessingCostSum | be_daeho/src/main/java/codehows/com/daehoint/formula/DailyProcessReportProductionCostFormula.java:66-69 | no contract; stated by ProcessCost.ListSumsAdditive, ProcessCost.NullRowAddsNothing |
| ProcessCost.ProcessInOutsourcingWorkSum | be_daeho/src/main/java/codehows/com/daehoint/formula/DailyProcessReportProductionCostFormula.java:72-74 | no contract; stated by ProcessCost.OutsourcingCarriedOver |
| ProcessCost.ProcessTotalSum | be_daeho/src/main/java/codehows/com/daehoint/formula/DailyProcessReportProductionCostFormula.java:77-79 | no contract; stated by ProcessCost.ActualSumOfParts |
| ProcessCost.TotalProductionActualSum | be_daeho/src/main/java/codehows/com/daehoint/formula/DailyProcessReportProductionCostFormula.java:82-84 | no contract; stated by ProcessCost.MaterialAndProcessingShares, ProcessCost.ActualSumOfParts |
| ProcessCost.DefectiveQuantity | be_daeho/src/main/java/codehows/com/daehoint/formula/DailyProcessReportProductionCostFormula.java:87-90 | no contract; stated by ProcessCost.ListSumsAdditive, ProcessCost.NullRowAddsNothing |
| ProcessCost.DefectiveCost | be_daeho/src/main/java/codehows/com/daehoint/formula/DailyProcessReportProductionCostFormula.java:93-98 | no contract; stated by ProcessCost.ListSumsAdditive, ProcessCost.NullRowAddsNothing |
| ProcessCost.StopAndNonproductiveHours | be_daeho/src/main/java/codehows/com/daehoint/formula/DailyProcessReportProductionCostFormula.java:101-104 | no contract; stated by ProcessCost.StopAndNonproductiveCases |
| ProcessCost.StopAndNonproductiveCost | be_daeho/src/main/java/codehows/com/daehoint/formula/DailyProcessReportProductionCostFormula.java:107-109 | no contract; stated by ProcessCost.TotalCostParts |
| ProcessCost.ReworkHours | be_daeho/src/main/java/codehows/com/daehoint/formula/DailyProcessReportProductionCostFormula.java:112-114 | no contract; stated by ProcessCost.ReworkOfReport |
| ProcessCost.ReworkCost | be_daeho/src/main/java/codehows/com/daehoint/formula/DailyProcessReportProductionCostFormula.java:117-119 | no contract; stated by ProcessCost.TotalCostParts, ProcessCost.ReworkOfReport |
| ProcessCost.TotalCost | be_daeho/src/main/java/codehows/com/daehoint/formula/DailyProcessReportProductionCostFormula.java:122-126 | no contract; stated by ProcessCost.TotalCostParts |
| ProcessCost.EstimateCostTotal | be_daeho/src/main/java/codehows/com/daehoint/formula/DailyProcessReportProductionCostFormula.java:154-157 | no contract; stated by ProcessCost.ListSumsAdditive, ProcessCost.NullRowAddsNothing |
| ProcessCost.ProcessTotalProductionInputAmount | be_daeho/src/main/java/codehows/com/daehoint/formula/DailyProcessReportProductionCostFormula.java:160-165 | no contract; stated by ProcessCost.InputAmountCases |
| ProcessCost.ActualSumOfParts | be_daeho/src/main/java/codehows/com/daehoint/formula/DailyProcessReportProductionCostFormula.java:61-84 | the actual sum equals material cost, sub-material, processing cost and outsourcing added together |
| ProcessCost.ProfitRateSign | be_daeho/src/main/java/codehows/com/daehoint/formula/DailyProcessReportProductionCostFormula.java:168-175 | the profit rate is 0 without an estimate; against a positive estimate it is positive exactly when the input amount is below the estimate |
| ProcessCost.ReworkOfReport | be_daeho/src/main/java/codehows/com/daehoint/formula/DailyProcessReportProductionCostFormula.java:112-119 | rework hours are the report's recorded rework column, costed at the man rate, and 0 with cost 0 when the column is absent |
| ProcessCost.ManufacturingExpensePlaceholders | be_daeho/src/main/java/codehows/com/daehoint/formula/DailyProcessReportProductionCostFormula.java:129-151 | no contract; stated by ProcessCost.PlaceholdersAreZero |
| ProcessCost.ActualProfit | be_daeho/src/main/java/codehows/com/daehoint/formula/DailyProcessReportProductionCostFormula.java:168-170 | no contract; stated by ProcessCost.ProfitRateSign |
| ProcessCost.ProfitRate | be_daeho/src/main/java/codehows/com/daehoint/formula/DailyProcessReportProductionCostFormula.java:173-175 | no contract; stated by ProcessCost.RatesGuarded, ProcessCost.ProfitRateSign |
| ProcessCost.LossRate | be_daeho/src/main/java/codehows/com/daehoint/formula/DailyProcessReportProductionCostFormula.java:178-180 | no contract; stated by ProcessCost.RatesGuarded |
| ProcessCost.MaterialRate | be_daeho/src/main/java/codehows/com/daehoint/formula/DailyProcessReportProductionCostFormula.java:183-185 | no contract; stated by ProcessCost.RatesGuarded, ProcessCost.MaterialAndProcessingShares |
| ProcessCost.ProcessingRate | be_daeho/src/main/java/codehows/com/daehoint/formula/DailyProcessReportProductionCostFormula.java:188-190 | no contract; stated by ProcessCost.RatesGuarded, ProcessCost.MaterialAndProcessingShares |
| ProcessManInput.StopPlusReworkIsTotalLoss | be_daeho/src/main/java/codehows/com/daehoint/formula/DailyProcessReportManInputFormula.java:49-71 | every loss counts either as stop (any reason but "재작업") or as rework, so stop plus rework, the non-productive man-hours, is the sum of all loss amounts, null counted as 0 |
| ProcessManInput.StandardManHoursAppend | be_daeho/src/main/java/codehows/com/daehoint/formula/DailyProcessReportManInputFormula.java:37-41 | the standard man-hours are additive over the status rows |
| ProcessManInput.StandardManHoursNullTerm | be_daeho/src/main/java/codehows/com/daehoint/formula/DailyProcessReportManInputFormula.java:37-41 | a status row with a null standard time or a null completed quantity adds nothing |
| ProcessManInput.ManHourChain | be_daeho/src/main/java/codehows/com/daehoint/formula/DailyProcessReportManInputFormula.java:74-86 | once each step is non-zero, working man-hours are the available man-hours minus twice the stop and rework hours |
| ProcessManInput.ZeroAvailableStopsChain | be_daeho/src/main/java/codehows/com/daehoint/formula/DailyProcessReportManInputFormula.java:74-86 | zero available man-hours make workload, actual and working man-hours all 0 |
| ProcessManInput.ComposedInputRateDefined | be_daeho/src/main/java/codehows/com/daehoint/formula/DailyProcessReportManInputFormula.java:74-106 | applied to the workload it was computed from, the input rate never divides by zero, and it is 100 without available man-hours or without non-productive hours |
| ProcessManInput.RatesGuarded | be_daeho/src/main/java/codehows/com/daehoint/formula/DailyProcessReportManInputFormula.java:89-111 | work efficiency, actual efficiency, loss rate and operation rate are 0 when their guard fails and the percentage otherwise |
| ProcessManInput.OverallEfficiencyIsMean | be_daeho/src/main/java/codehows/com/daehoint/formula/DailyProcessReportManInputFormula.java:114-118 | the overall efficiency is positive exactly when all three rates are, and is then their mean |
| ProcessManInput.FluxOnlyForDip | be_daeho/src/main/java/codehows/com/daehoint/formula/DailyProcessReportManInputFormula.java:134-159 | every category but DIP reports 0 for the flux on-time, operating time and operating rate |
| ProcessManInput.FluxOnDip | be_daeho/src/main/java/codehows/com/daehoint/formula/DailyProcessReportManInputFormula.java:134-159 | on DIP the scheduled time is 4 hours exactly on Friday and 9 otherwise, and the operating rate over it is defined |
| ProcessManInput.AdditionalInputRateAsWrittenDividesByZero | be_daeho/src/main/java/codehows/com/daehoint/formula/DailyProcessReportManInputFormula.java:130-132 | with 0 available man-hours and 2 overtime hours the rate as written divides by zero |
| ProcessManInput.AdditionalInputRateCorrected | be_daeho/src/main/java/codehows/com/daehoint/formula/DailyProcessReportManInputFormula.java:130-132 | the rate guarded by its denominator is always defined, is 0 without available man-hours, agrees with the code wherever the code is defined, and the code is undefined exactly for zero available and non-zero overtime man-hours |
| ProcessManInput.AvailablePersonnel | be_daeho/src/main/java/codehows/com/daehoint/formula/DailyProcessReportManInputFormula.java:32-34 | no contract; stated by ProcessManInput.CarriedFromPreviousReport |
| ProcessManInput.AvailableManHours | be_daeho/src/main/java/codehows/com/daehoint/formula/DailyProcessReportManInputFormula.java:44-46 | no contract; stated by ProcessManInput.CarriedFromPreviousReport |
| ProcessManInput.OvertimePersonnel | be_daeho/src/main/java/codehows/com/daehoint/formula/DailyProcessReportManInputFormula.java:122-124 | no contract; stated by ProcessManInput.CarriedFromPreviousReport |
| ProcessManInput.OvertimeManHours | be_daeho/src/main/java/codehows/com/daehoint/formula/DailyProcessReportManInputFormula.java:126-128 | no contract; stated by ProcessManInput.CarriedFromPreviousReport |
| ProcessManInput.StandardManHours | be_daeho/src/main/java/codehows/com/daehoint/formula/DailyProcessReportManInputFormula.java:37-41 | no contract; stated by ProcessManInput.StandardManHoursAppend, ProcessManInput.StandardManHoursNullTerm |
| ProcessManInput.StopManHours | be_daeho/src/main/java/codehows/com/daehoint/formula/DailyProcessReportManInputFormula.java:49-56 | no contract; stated by ProcessManInput.StopPlusReworkIsTotalLoss |
| ProcessManInput.ReworkManHours | be_daeho/src/main/java/codehows/com/daehoint/formula/DailyProcessReportManInputFormula.java:59-66 | no contract; stated by ProcessManInput.StopPlusReworkIsTotalLoss |
| ProcessManInput.NonProductiveManHours | be_daeho/src/main/java/codehows/com/daehoint/formula/DailyProcessReportManInputFormula.java:69-71 | no contract; stated by ProcessManInput.StopPlusReworkIsTotalLoss, ProcessManInput.ManHourChain, ProcessManInput.ZeroAvailableStopsChain |
| ProcessManInput.WorkloadManHours | be_daeho/src/main/java/codehows/com/daehoint/formula/DailyProcessReportManInputFormula.java:74-76 | no contract; stated by ProcessManInput.ManHourChain, ProcessManInput.ZeroAvailableStopsChain, ProcessManInput.ComposedInputRateDefined |
| ProcessManInput.ActualManHours | be_daeho/src/main/java/codehows/com/daehoint/formula/DailyProcessReportManInputFormula.java:79-81 | no contract; stated by ProcessManInput.ManHourChain, ProcessManInput.ZeroAvailableStopsChain |
| ProcessManInput.WorkingManHours | be_daeho/src/main/java/codehows/com/daehoint/formula/DailyProcessReportManInputFormula.java:84-86 | no contract; stated by ProcessManInput.ManHourChain, ProcessManInput.ZeroAvailableStopsChain |
| ProcessManInput.WorkEfficiency | be_daeho/src/main/java/codehows/com/daehoint/formula/DailyProcessReportManInputFormula.java:89-91 | no contract; stated by ProcessManInput.RatesGuarded |
| ProcessManInput.ActualEfficiency | be_daeho/src/main/java/codehows/com/daehoint/formula/DailyProcessReportManInputFormula.java:94-96 | no contract; stated by ProcessManInput.RatesGuarded |
| ProcessManInput.LossRate | be_daeho/src/main/java/codehows/com/daehoint/formula/DailyProcessReportManInputFormula.java:99-101 | no contract; stated by ProcessManInput.RatesGuarded |
| ProcessManInput.ManHourInputRate | be_daeho/src/main/java/codehows/com/daehoint/formula/DailyProcessReportManInputFormula.java:104-106 | no contract; stated by ProcessManInput.ComposedInputRateDefined |
| ProcessManInput.ManHourOperationRate | be_daeho/src/main/java/codehows/com/daehoint/formula/DailyProcessReportManInputFormula.java:109-111 | no contract; stated by ProcessManInput.RatesGuarded |
| ProcessManInput.OverallManHourEfficiency | be_daeho/src/main/java/codehows/com/daehoint/formula/DailyProcessReportManInputFormula.java:114-118 | no contract; stated by ProcessManInput.OverallEfficiencyIsMean |
| ProcessManInput.AdditionalInputRateAsWritten | be_daeho/src/main/java/codehows/com/daehoint/formula/DailyProcessReportManInputFormula.java:130-132 | no contract; the rate as the code computes it, guarding the numerator; stated by ProcessManInput.AdditionalInputRateAsWrittenDividesByZero, ProcessManInput.AdditionalInputRateCorrected |
| ProcessManInput.AdditionalInputRate | be_daeho/src/main/java/codehows/com/daehoint/formula/DailyProcessReportManInputFormula.java:130-132 | no contract; not the code as written but the corrected rate of the Findings row, guarded on its denominator as the main report guards it; stated by ProcessManInput.AdditionalInputRateCorrected, which proves it equal to the code wherever the code is defined |
| ProcessManInput.FluxOnTime | be_daeho/src/main/java/codehows/com/daehoint/formula/DailyProcessReportManInputFormula.java:134-144 | no contract; stated by ProcessManInput.FluxOnlyForDip, ProcessManInput.FluxOnDip |
| ProcessManInput.FluxOperationTime | be_daeho/src/main/java/codehows/com/daehoint/formula/DailyProcessReportManInputFormula.java:146-152 | no contract; stated by ProcessManInput.FluxOnlyForDip, ProcessManInput.FluxOnDip |
| ProcessManInput.FluxOperationRate | be_daeho/src/main/java/codehows/com/daehoint/formula/DailyProcessReportManInputFormula.java:154-159 | no contract; stated by ProcessManInput.FluxOnlyForDip, ProcessManInput.FluxOnDip |
| ProcessManInput.CarriedFromPreviousReport | be_daeho/src/main/java/codehows/com/daehoint/formula/DailyProcessReportManInputFormula.java:32-128 | no previous report gives 0 available personnel, available man-hours, overtime personnel and overtime man-hours; a present report carries each recorded value unchanged |
| Rates.GuardedPercent | be_daeho/src/main/java/codehows/com/daehoint/formula/DailyProcessReportManInputFormula.java:89-111 | 0 for a zero divisor, otherwise the value that times the divisor is 100 times the numerator |
| Rates.RawPercent | be_daeho/src/main/java/codehows/com/daehoint/formula/DailyProcessReportManInputFormula.java:104-106 | undefined exactly for a zero divisor, otherwise the percentage |
| Rates.Round | be_daeho/src/main/java/codehows/com/daehoint/formula/DailyProcessReportStatusFormula.java:70 | Math.round: the integer within one half of the value, halves rounded up |
| Rates.IntValue | be_daeho/src/main/java/codehows/com/daehoint/formula/DailyMainReportAttendanceFormula.java:25-30 | a narrowing cast of a double: truncation toward zero within the 32-bit range, saturation at the bounds outside it |
| Rates.AddInt32 | be_daeho/src/main/java/codehows/com/daehoint/formula/DailyMainReportAttendanceFormula.java:53-55 | 32-bit int addition: the exact sum when it fits, otherwise the sum wrapped modulo 2^32 into the range |
| MainManInput.TotalAppend | be_daeho/src/main/java/codehows/com/daehoint/formula/DailyMainReportManInputFormula.java:27-72 | a column total over the process reports is additive over concatenation |
| MainManInput.TotalSingle | be_daeho/src/main/java/codehows/com/daehoint/formula/DailyMainReportManInputFormula.java:27-30 | a single report contributes its own value, or 0 when the column is null |
| MainManInput.TotalAllNull | be_daeho/src/main/java/codehows/com/daehoint/formula/DailyMainReportManInputFormula.java:27-30 | a column that is null in every report totals 0 |
| MainManInput.RatesGuarded | be_daeho/src/main/java/codehows/com/daehoint/formula/DailyMainReportManInputFormula.java:75-97 | work and actual efficiency, loss rate, input rate and operation rate are 0 when their denominator is 0 and the percentage otherwise |
| MainManInput.TotalEfficiencyUnguarded | be_daeho/src/main/java/codehows/com/daehoint/formula/DailyMainReportManInputFormula.java:100-102 | the total efficiency is the plain mean of the three rates, so unlike the process report it is non-zero with a zero work efficiency whenever the other two do not cancel |
| MainManInput.SpecialSupportTruncates | be_daeho/src/main/java/codehows/com/daehoint/formula/DailyMainReportManInputFormula.java:105-109 | the special-support personnel is the overtime-personnel total with its fraction dropped |
| MainManInput.AdditionalInputRateMatchesProcess | be_daeho/src/main/java/codehows/com/daehoint/formula/DailyMainReportManInputFormula.java:118-120 | the main report's additional input rate is guarded by its denominator and equals the corrected process-report rate |
| MainManInput.FluxRunningRateByDay | be_daeho/src/main/java/codehows/com/daehoint/formula/DailyMainReportManInputFormula.java:129-138 | the flux running rate is the operating-time total over 4 hours on Friday and over 9 hours on other days, as a percentage |
| MainProdCost.FilteredTotalAppend | be_daeho/src/main/java/codehows/com/daehoint/formula/DailyMainReportProdCostFormula.java:41-68 | a category-filtered column total is additive over concatenation |
| MainProdCost.ProcessingCostPartition | be_daeho/src/main/java/codehows/com/daehoint/formula/DailyMainReportProdCostFormula.java:41-56 | the production categories (DIP, PCB, CASE, PACKING ASSY) and the SM&IM categories are disjoint, so the two costs and the rest make up the total processing cost of all reports |
| MainProdCost.ExcludedCategories | be_daeho/src/main/java/codehows/com/daehoint/formula/DailyMainReportProdCostFormula.java:41-68 | a report of ACCY, MANUAL ASSY or with a null category adds nothing to production, SM&IM or in-process outsourcing cost |
| MainProdCost.ExternalUsesProductionCategories | be_daeho/src/main/java/codehows/com/daehoint/formula/DailyMainReportProdCostFormula.java:59-68 | a report counts towards in-process outsourcing exactly when it counts towards production cost |
| MainProdCost.DirectInputCostAdditive | be_daeho/src/main/java/codehows/com/daehoint/formula/DailyMainReportProdCostFormula.java:24-122 | the direct input cost (loss costs plus materials plus processing) is additive over the reports |
| MainProdCost.NullLossColumns | be_daeho/src/main/java/codehows/com/daehoint/formula/DailyMainReportProdCostFormula.java:81-114 | a report whose loss columns are null leaves every loss total unchanged |
| MainManInput.AvailableManHours | be_daeho/src/main/java/codehows/com/daehoint/formula/DailyMainReportManInputFormula.java:27-30 | no contract; the Total of its report column, stated by MainManInput.TotalAppend, MainManInput.TotalSingle, MainManInput.TotalAllNull |
| MainManInput.StandardManHours | be_daeho/src/main/java/codehows/com/daehoint/formula/DailyMainReportManInputFormula.java:33-36 | no contract; the Total of its report column, stated by MainManInput.TotalAppend, MainManInput.TotalSingle, MainManInput.TotalAllNull |
| MainManInput.NonProductiveManHours | be_daeho/src/main/java/codehows/com/daehoint/formula/DailyMainReportManInputFormula.java:39-42 | no contract; the Total of its report column, stated by MainManInput.TotalAppend, MainManInput.TotalSingle, MainManInput.TotalAllNull |
| MainManInput.LoadManHours | be_daeho/src/main/java/codehows/com/daehoint/formula/DailyMainReportManInputFormula.java:45-48 | no contract; the Total of its report column, stated by MainManInput.TotalAppend, MainManInput.TotalSingle, MainManInput.TotalAllNull |
| MainManInput.StoppedManHours | be_daeho/src/main/java/codehows/com/daehoint/formula/DailyMainReportManInputFormula.java:51-54 | no contract; the Total of its report column, stated by MainManInput.TotalAppend, MainManInput.TotalSingle, MainManInput.TotalAllNull |
| MainManInput.ReworkManHours | be_daeho/src/main/java/codehows/com/daehoint/formula/DailyMainReportManInputFormula.java:57-60 | no contract; the Total of its report column, stated by MainManInput.TotalAppend, MainManInput.TotalSingle, MainManInput.TotalAllNull |
| MainManInput.ActualManHours | be_daeho/src/main/java/codehows/com/daehoint/formula/DailyMainReportManInputFormula.java:63-66 | no contract; the Total of its report column, stated by MainManInput.TotalAppend, MainManInput.TotalSingle, MainManInput.TotalAllNull |
| MainManInput.WorkingManHours | be_daeho/src/main/java/codehows/com/daehoint/formula/DailyMainReportManInputFormula.java:69-72 | no contract; the Total of its report column, stated by MainManInput.TotalAppend, MainManInput.TotalSingle, MainManInput.TotalAllNull |
| MainManInput.SpecialSupportManHours | be_daeho/src/main/java/codehows/com/daehoint/formula/DailyMainReportManInputFormula.java:112-115 | no contract; the Total of its report column, stated by MainManInput.TotalAppend, MainManInput.TotalSingle, MainManInput.TotalAllNull |
| MainManInput.FluxEquipmentRunningTime | be_daeho/src/main/java/codehows/com/daehoint/formula/DailyMainReportManInputFormula.java:123-126 | no contract; stated by MainManInput.FluxRunningRateByDay |
| MainManInput.WorkEfficiency | be_daeho/src/main/java/codehows/com/daehoint/formula/DailyMainReportManInputFormula.java:75-77 | no contract; stated by MainManInput.RatesGuarded |
| MainManInput.ActualEfficiency | be_daeho/src/main/java/codehows/com/daehoint/formula/DailyMainReportManInputFormula.java:80-82 | no contract; stated by MainManInput.RatesGuarded |
| MainManInput.LossRate | be_daeho/src/main/java/codehows/com/daehoint/formula/DailyMainReportManInputFormula.java:85-87 | no contract; stated by MainManInput.RatesGuarded |
| MainManInput.ManHourInputRate | be_daeho/src/main/java/codehows/com/daehoint/formula/DailyMainReportManInputFormula.java:90-92 | no contract; stated by MainManInput.RatesGuarded |
| MainManInput.ManHourOperationRate | be_daeho/src/main/java/codehows/com/daehoint/formula/DailyMainReportManInputFormula.java:95-97 | no contract; stated by MainManInput.RatesGuarded |
| MainManInput.TotalEfficiency | be_daeho/src/main/java/codehows/com/daehoint/formula/DailyMainReportManInputFormula.java:100-102 | no contract; stated by MainManInput.TotalEfficiencyUnguarded |
| MainManInput.SpecialSupportPersonnel | be_daeho/src/main/java/codehows/com/daehoint/formula/DailyMainReportManInputFormula.java:105-109 | no contract; stated by MainManInput.SpecialSupportTruncates |
| MainManInput.AdditionalInputRate | be_daeho/src/main/java/codehows/com/daehoint/formula/DailyMainReportManInputFormula.java:118-120 | no contract; stated by MainManInput.AdditionalInputRateMatchesProcess |
| MainManInput.FluxEquipmentRunningRate | be_daeho/src/main/java/codehows/com/daehoint/formula/DailyMainReportManInputFormula.java:129-138 | no contract; stated by MainManInput.FluxRunningRateByDay |
| MainProdCost.RawMaterialCost | be_daeho/src/main/java/codehows/com/daehoint/formula/DailyMainReportProdCostFormula.java:24-27 | no contract; stated through MainProdCost.DirectInputCost by MainProdCost.DirectInputCostAdditive |
| MainProdCost.SubsidiaryMaterialCost | be_daeho/src/main/java/codehows/com/daehoint/formula/DailyMainReportProdCostFormula.java:30-33 | no contract; stated through MainProdCost.DirectInputCost by MainProdCost.DirectInputCostAdditive |
| MainProdCost.TotalMaterialCost | be_daeho/src/main/java/codehows/com/daehoint/formula/DailyMainReportProdCostFormula.java:36-38 | no contract; stated through MainProdCost.DirectInputCost by MainProdCost.DirectInputCostAdditive |
| MainProdCost.ProductionCost | be_daeho/src/main/java/codehows/com/daehoint/formula/DailyMainReportProdCostFormula.java:41-48 | no contract; stated by MainProdCost.ProcessingCostPartition, MainProdCost.ExcludedCategories, MainProdCost.ExternalUsesProductionCategories |
| MainProdCost.SmImCost | be_daeho/src/main/java/codehows/com/daehoint/formula/DailyMainReportProdCostFormula.java:51-56 | no contract; stated by MainProdCost.ProcessingCostPartition, MainProdCost.ExcludedCategories |
| MainProdCost.ExternalProcessingCost | be_daeho/src/main/java/codehows/com/daehoint/formula/DailyMainReportProdCostFormula.java:59-68 | no contract; stated by MainProdCost.ExcludedCategories, MainProdCost.ExternalUsesProductionCategories |
| MainProdCost.TotalProductionCost | be_daeho/src/main/java/codehows/com/daehoint/formula/DailyMainReportProdCostFormula.java:71-73 | no contract; stated through MainProdCost.DirectInputCost by MainProdCost.DirectInputCostAdditive |
| MainProdCost.TotalProductionAmount | be_daeho/src/main/java/codehows/com/daehoint/formula/DailyMainReportProdCostFormula.java:76-78 | no contract; stated through MainProdCost.DirectInputCost by MainProdCost.DirectInputCostAdditive |
| MainProdCost.LossHandlingCnt | be_daeho/src/main/java/codehows/com/daehoint/formula/DailyMainReportProdCostFormula.java:81-84 | no contract; stated by MainProdCost.NullLossColumns |
| MainProdCost.LossHandlingCost | be_daeho/src/main/java/codehows/com/daehoint/formula/DailyMainReportProdCostFormula.java:87-90 | no contract; stated by MainProdCost.NullLossColumns |
| MainProdCost.NonProductiveHour | be_daeho/src/main/java/codehows/com/daehoint/formula/DailyMainReportProdCostFormula.java:93-96 | no contract; stated by MainProdCost.NullLossColumns |
| MainProdCost.NonProductiveCost | be_daeho/src/main/java/codehows/com/daehoint/formula/DailyMainReportProdCostFormula.java:99-102 | no contract; stated by MainProdCost.NullLossColumns |
| MainProdCost.ReworkCnt | be_daeho/src/main/java/codehows/com/daehoint/formula/DailyMainReportProdCostFormula.java:105-108 | no contract; stated by MainProdCost.NullLossColumns |
| MainProdCost.ReworkCost | be_daeho/src/main/java/codehows/com/daehoint/formula/DailyMainReportProdCostFormula.java:111-114 | no contract; stated by MainProdCost.NullLossColumns |
| MainProdCost.TotalLossCost | be_daeho/src/main/java/codehows/com/daehoint/formula/DailyMainReportProdCostFormula.java:116-118 | no contract; stated through MainProdCost.DirectInputCost by MainProdCost.DirectInputCostAdditive |
| MainProdCost.TotalProductionDirectInputCost | be_daeho/src/main/java/codehows/com/daehoint/formula/DailyMainReportProdCostFormula.java:120-122 | no contract; stated through MainProdCost.DirectInputCost by MainProdCost.DirectInputCostAdditive |
| MfgCost.NoExpensesGiveZero | be_daeho/src/main/java/codehows/com/daehoint/formula/DailyMainReportMFGCost.java:28-55 | without a monthly expense entry each expense and the manufacturing cost are 0 |
| MfgCost.ManufacturingCostOfEntry | be_daeho/src/main/java/codehows/com/daehoint/formula/DailyMainReportMFGCost.java:28-55 | with an entry the manufacturing cost is the sum of its overhead, general management, sales, depreciation and other amounts, the direct cost being 0 |
| MfgCost.NetProfitOfEstimate | be_daeho/src/main/java/codehows/com/daehoint/formula/DailyMainReportMFGCost.java:68-75 | the net profit rate is 0 for a zero product cost, otherwise the profit as a percentage of that cost, positive for a positive cost exactly when the estimate exceeds it |
| MfgCost.PlaceholdersAreZero | be_daeho/src/main/java/codehows/com/daehoint/formula/DailyMainReportMFGCost.java:23-85 | the direct personnel cost, the investment cost and the expenditure are fixed at 0 |
| MfgCost.TotalEstimateCostAppend | be_daeho/src/main/java/codehows/com/daehoint/formula/DailyMainReportMFGCost.java:63-65 | the total estimate cost is additive over the process reports |
| StockFormula.NoStatusDefaults | be_daeho/src/main/java/codehows/com/daehoint/formula/ProcessStockFormula.java:28-81 | without a status row the price per set, costs and pending quantity are 0, the product name is "실적 입력전", the model number "Unknown modelNo" and the specification empty |
| StockFormula.TotalCostIsMaterialPlusProcessing | be_daeho/src/main/java/codehows/com/daehoint/formula/ProcessStockFormula.java:48-61 | the total cost is the material cost plus the processing cost, each null counted as 0 |
| StockFormula.QcPassedSkipsNulls | be_daeho/src/main/java/codehows/com/daehoint/formula/ProcessStockFormula.java:84-88 | a null inspection entry, or one without a pass quantity, adds nothing to the passed quantity; any other adds its pass quantity |
| StockFormula.DefectiveQuantityDecomposes | be_daeho/src/main/java/codehows/com/daehoint/formula/ProcessStockFormula.java:96-101 | the defective quantity is additive over the inspection entries and counts the status row's defectives once, null as 0 |
| StockFormula.CostSummaryIsQuantityAtPrice | be_daeho/src/main/java/codehows/com/daehoint/formula/ProcessStockFormula.java:69-116 | the cost summary is the total quantity at the per-set price |
| StockFormula.TotalQuantityExcludesDefectives | be_daeho/src/main/java/codehows/com/daehoint/formula/ProcessStockFormula.java:84-111 | the stock total does not depend on the defective quantity of any inspection entry |
| MfgCost.DirectPersonnelCost | be_daeho/src/main/java/codehows/com/daehoint/formula/DailyMainReportMFGCost.java:23-25 | no contract; stated by MfgCost.PlaceholdersAreZero |
| MfgCost.IndirectPersonnelCost | be_daeho/src/main/java/codehows/com/daehoint/formula/DailyMainReportMFGCost.java:28-30 | no contract; stated by MfgCost.NoExpensesGiveZero |
| MfgCost.GeneralManagementCost | be_daeho/src/main/java/codehows/com/daehoint/formula/DailyMainReportMFGCost.java:33-35 | no contract; stated by MfgCost.NoExpensesGiveZero |
| MfgCost.SalesCost | be_daeho/src/main/java/codehows/com/daehoint/formula/DailyMainReportMFGCost.java:38-40 | no contract; stated by MfgCost.NoExpensesGiveZero |
| MfgCost.EquipmentDepreciationCost | be_daeho/src/main/java/codehows/com/daehoint/formula/DailyMainReportMFGCost.java:43-45 | no contract; stated by MfgCost.NoExpensesGiveZero |
| MfgCost.OtherCost | be_daeho/src/main/java/codehows/com/daehoint/formula/DailyMainReportMFGCost.java:48-50 | no contract; stated by MfgCost.NoExpensesGiveZero |
| MfgCost.TotalManufacturingCost | be_daeho/src/main/java/codehows/com/daehoint/formula/DailyMainReportMFGCost.java:53-55 | no contract; stated through MfgCost.ManufacturingCostOf by MfgCost.NoExpensesGiveZero, MfgCost.ManufacturingCostOfEntry, MfgCost.ProfitOfExpenses |
| MfgCost.TotalProductCost | be_daeho/src/main/java/codehows/com/daehoint/formula/DailyMainReportMFGCost.java:58-60 | no contract; stated by MfgCost.ProfitOfExpenses |
| MfgCost.TotalEstimateCost | be_daeho/src/main/java/codehows/com/daehoint/formula/DailyMainReportMFGCost.java:63-65 | no contract; stated by MfgCost.TotalEstimateCostAppend |
| MfgCost.TotalProfit | be_daeho/src/main/java/codehows/com/daehoint/formula/DailyMainReportMFGCost.java:68-70 | no contract; stated by MfgCost.NetProfitOfEstimate, MfgCost.ProfitOfExpenses |
| MfgCost.NetProfit | be_daeho/src/main/java/codehows/com/daehoint/formula/DailyMainReportMFGCost.java:73-75 | no contract; stated by MfgCost.NetProfitOfEstimate |
| MfgCost.InvestCost | be_daeho/src/main/java/codehows/com/daehoint/formula/DailyMainReportMFGCost.java:78-80 | no contract; stated by MfgCost.PlaceholdersAreZero |
| MfgCost.TotalExpenditure | be_daeho/src/main/java/codehows/com/daehoint/formula/DailyMainReportMFGCost.java:83-85 | no contract; stated by MfgCost.PlaceholdersAreZero |
| StockFormula.PricePerSet | be_daeho/src/main/java/codehows/com/daehoint/formula/ProcessStockFormula.java:28-30 | no contract; stated by StockFormula.NoStatusDefaults |
| StockFormula.ProductName | be_daeho/src/main/java/codehows/com/daehoint/formula/ProcessStockFormula.java:33-35 | no contract; stated by StockFormula.NoStatusDefaults |
| StockFormula.ModelNo | be_daeho/src/main/java/codehows/com/daehoint/formula/ProcessStockFormula.java:38-40 | no contract; stated by StockFormula.NoStatusDefaults |
| StockFormula.Specification | be_daeho/src/main/java/codehows/com/daehoint/formula/ProcessStockFormula.java:43-45 | no contract; stated by StockFormula.NoStatusDefaults |
| StockFormula.MaterialCost | be_daeho/src/main/java/codehows/com/daehoint/formula/ProcessStockFormula.java:48-50 | no contract; stated by StockFormula.NoStatusDefaults, StockFormula.TotalCostIsMaterialPlusProcessing |
| StockFormula.ProcessingCost | be_daeho/src/main/java/codehows/com/daehoint/formula/ProcessStockFormula.java:53-55 | no contract; stated by StockFormula.NoStatusDefaults, StockFormula.TotalCostIsMaterialPlusProcessing |
| StockFormula.TotalCost | be_daeho/src/main/java/codehows/com/daehoint/formula/ProcessStockFormula.java:58-61 | no contract; stated by StockFormula.NoStatusDefaults, StockFormula.TotalCostIsMaterialPlusProcessing |
| StockFormula.WipQuantity | be_daeho/src/main/java/codehows/com/daehoint/formula/ProcessStockFormula.java:64-66 | no contract; stated by StockFormula.TotalQuantityExcludesDefectives |
| StockFormula.WipCost | be_daeho/src/main/java/codehows/com/daehoint/formula/ProcessStockFormula.java:69-71 | no contract; stated by StockFormula.CostSummaryIsQuantityAtPrice |
| StockFormula.QcPendingQuantity | be_daeho/src/main/java/codehows/com/daehoint/formula/ProcessStockFormula.java:74-76 | no contract; stated by StockFormula.NoStatusDefaults, StockFormula.TotalQuantityExcludesDefectives |
| StockFormula.QcPendingCost | be_daeho/src/main/java/codehows/com/daehoint/formula/ProcessStockFormula.java:79-81 | no contract; stated by StockFormula.CostSummaryIsQuantityAtPrice |
| StockFormula.QcPassedQuantity | be_daeho/src/main/java/codehows/com/daehoint/formula/ProcessStockFormula.java:84-88 | no contract; stated by StockFormula.QcPassedSkipsNulls, StockFormula.TotalQuantityExcludesDefectives |
| StockFormula.QcPassedCost | be_daeho/src/main/java/codehows/com/daehoint/formula/ProcessStockFormula.java:91-93 | no contract; stated by StockFormula.CostSummaryIsQuantityAtPrice |
| StockFormula.DefectiveQuantity | be_daeho/src/main/java/codehows/com/daehoint/formula/ProcessStockFormula.java:96-101 | no contract; stated by StockFormula.DefectiveQuantityDecomposes, StockFormula.DefectiveCostDecomposes |
| StockFormula.DefectiveCost | be_daeho/src/main/java/codehows/com/daehoint/formula/ProcessStockFormula.java:104-106 | no contract; stated by StockFormula.DefectiveCostDecomposes |
| StockFormula.TotalQuantity | be_daeho/src/main/java/codehows/com/daehoint/formula/ProcessStockFormula.java:109-111 | no contract; stated by StockFormula.CostSummaryIsQuantityAtPrice, StockFormula.TotalQuantityExcludesDefectives |
| StockFormula.TotalCostSummary | be_daeho/src/main/java/codehows/com/daehoint/formula/ProcessStockFormula.java:114-116 | no contract; stated by StockFormula.CostSummaryIsQuantityAtPrice |
| MfgCost.ProfitOfExpenses | be_daeho/src/main/java/codehows/com/daehoint/formula/DailyMainReportMFGCost.java:53-70 | the profit is the estimate less the expense entry's manufacturing cost and the direct input cost; without an entry it is the estimate less the direct input cost |
| StockFormula.DefectiveCostDecomposes | be_daeho/src/main/java/codehows/com/daehoint/formula/ProcessStockFormula.java:96-106 | the defective cost of two concatenated inspection lists is the first list's cost plus the second list's inspection defects at the per-set price |
| ReportTotals.ColumnSumAppend | front_daeho/src/components/tools/utils.tsx:76-94 | a column sum is additive over concatenation of the rows |
| ReportTotals.SumColumns | front_daeho/src/components/tools/utils.tsx:76-94 | the loop adding every row's value, missing as 0, into each column yields exactly the column sums over the given columns |
| ReportTotals.DivideColumn | front_daeho/src/components/tools/utils.tsx:97-99 | one column is divided by the row count, every other column is unchanged |
| ReportTotals.RowDivisor | front_daeho/src/components/tools/utils.tsx:97 | `data.length \|\| 1`: the row count, or 1 for no rows |
| ReportTotals.SumColumnsAveraging | front_daeho/src/components/tools/utils.tsx:76-99 | the two rate columns are column sums over the row count (1 for no rows); all other columns are column sums; no rows give zeros |
| ReportTotals.CalculateProductionDataTotals | front_daeho/src/components/tools/utils.tsx:54-101 | the "합계" row: every quantity and cost column is its column sum and the achievement and defect rates are averaged over the rows |
| ReportTotals.AmountRows | front_daeho/src/components/tools/utils.tsx:138-167 | the amount columns of each material-cost row, in order |
| ReportTotals.CaluMaterialCostData | front_daeho/src/components/tools/utils.tsx:103-171 | no result for an empty list (reading the first row throws); otherwise "합계" with every amount column summed and the sales and purchase plans taken from the first row only |
| ReportTotals.CaluStockStatusData | front_daeho/src/components/tools/utils.tsx:173-189 | the "합계" row with every stock column summed |
| ReportTotals.CaluModelPurchasePlanData | front_daeho/src/components/tools/utils.tsx:191-211 | the "합계" row: zeros for a null list, otherwise every plan column summed |
| ReportTotals.CaluModelReceiptStatusData | front_daeho/src/components/tools/utils.tsx:214-234 | the "합계" row: zeros for a null list, otherwise every receipt column summed |
| ReportTotals.CaluWarehouseMaterialStatusData | front_daeho/src/components/tools/utils.tsx:236-276 | the "합계" row with every warehouse column summed |
| ReportTotals.ParseJwt | front_daeho/src/components/tools/utils.tsx:25-38 | a null or empty token gives null; a token that does not split into three parts on "." throws "Invalid JWT token"; otherwise header, payload and signature contain no "." and rejoin to the token |
| PurchaseResponse.SumNullable | be_daeho/src/main/java/codehows/com/daehoint/dto/PurchaseAndReceiptResponse.java:22-28 | either argument null counts as 0, and the sum is never null |
| PurchaseResponse.SumNullableLaws | be_daeho/src/main/java/codehows/com/daehoint/dto/PurchaseAndReceiptResponse.java:22-28 | the null-as-0 sum is commutative, has null as identity and is the sum of the two values read with null as 0 |
| PurchaseResponse.StripCommas | be_daeho/src/main/java/codehows/com/daehoint/dto/PurchaseAndReceiptResponse.java:85 | `replaceAll(",", "")`: the result holds no comma and is no longer than the text |
| PurchaseResponse.StripCommasKeepsOthers | be_daeho/src/main/java/codehows/com/daehoint/dto/PurchaseAndReceiptResponse.java:85 | every character other than a comma keeps its number of occurrences, and a text without commas is returned unchanged |
| PurchaseResponse.TripleOf | be_daeho/src/main/java/codehows/com/daehoint/dto/PurchaseAndReceiptResponse.java:40-80 | every amount column is the direct, subcontract or total column of the orders, receipts or pending orders |
| PurchaseResponse.DailyMaterialCost.Empty | be_daeho/src/main/java/codehows/com/daehoint/dto/PurchaseAndReceiptResponse.java:31-33 | the no-argument constructor leaves every field null |
| PurchaseResponse.DailyMaterialCost.constructor | be_daeho/src/main/java/codehows/com/daehoint/dto/PurchaseAndReceiptResponse.java:82-117 | the category is the order row's sortation or "데이터 없음", the sales plan is the parsed plan text without commas ("0" when null), the purchase plan is the plan amount or 0, and every amount column is the constructed value |
| PurchaseResponse.NewDailyMaterialCost | be_daeho/src/main/java/codehows/com/daehoint/dto/PurchaseAndReceiptResponse.java:82-117 | a null plan makes the constructor throw (None), whatever the order row; a present plan gives a fresh row with the constructor's category, plans and amount columns |
| PurchaseResponse.ConstructedTotals | be_daeho/src/main/java/codehows/com/daehoint/dto/PurchaseAndReceiptResponse.java:89-116 | in a constructed row each daily and monthly total is direct plus subcontract, and the weekly columns are null |
| PurchaseResponse.ConstructedDefaults | be_daeho/src/main/java/codehows/com/daehoint/dto/PurchaseAndReceiptResponse.java:89-116 | a constructed row has no null daily or monthly column: the nulls of the order view read as 0 |
| PurchaseResponse.DailyMaterialCost.ComputeWeekly | be_daeho/src/main/java/codehows/com/daehoint/dto/PurchaseAndReceiptResponse.java:124-163 | `monthly(days)`: only the weekly amount columns change, each to its value computed from the week's earlier days |
| PurchaseResponse.WeeklyTotalsWithDays | be_daeho/src/main/java/codehows/com/daehoint/dto/PurchaseAndReceiptResponse.java:126-153 | with a list of days each weekly direct or subcontract column is the days' sum plus today's value, and each weekly total is weekly direct plus weekly subcontract |
| PurchaseResponse.WeeklyWithoutDays | be_daeho/src/main/java/codehows/com/daehoint/dto/PurchaseAndReceiptResponse.java:154-162 | without a list the weekly direct and subcontract columns copy the daily ones and the weekly totals are not touched |
| PurchaseResponse.FreshRowWithoutDaysHasNullWeeklyTotals | be_daeho/src/main/java/codehows/com/daehoint/dto/PurchaseAndReceiptResponse.java:154-162 | a freshly built row given no list keeps null weekly totals while its weekly direct and subcontract columns are set |
| PurchaseResponse.MonthlyKeepsOtherPeriods | be_daeho/src/main/java/codehows/com/daehoint/dto/PurchaseAndReceiptResponse.java:124-163 | the daily and monthly columns are untouched by `monthly` |
| PurchaseResponse.DailyMaterialCost.Merge | be_daeho/src/main/java/codehows/com/daehoint/dto/PurchaseAndReceiptResponse.java:170-217 | `merge(source)`: every amount column becomes the merged value; category and plans are kept |
| PurchaseResponse.MergePeriodsCell | be_daeho/src/main/java/codehows/com/daehoint/dto/PurchaseAndReceiptResponse.java:170-217 | in a merged period every column is the null-as-0 sum of the two values |
| PurchaseResponse.MergeAmountsCell | be_daeho/src/main/java/codehows/com/daehoint/dto/PurchaseAndReceiptResponse.java:170-217 | every column of a merged row is set, to the null-as-0 sum of the two rows' values |
| PurchaseResponse.MergeKeepsTotals | be_daeho/src/main/java/codehows/com/daehoint/dto/PurchaseAndReceiptResponse.java:170-217 | merging two rows whose totals are direct plus subcontract keeps that relation |
| PurchaseResponse.DailyMaterialCost.SetCategory | be_daeho/src/main/java/codehows/com/daehoint/dto/PurchaseAndReceiptResponse.java:35-36 | only the category changes |
| PurchaseResponse.StockStatus.Empty | be_daeho/src/main/java/codehows/com/daehoint/dto/PurchaseAndReceiptResponse.java:222-224 | the no-argument constructor leaves every field null |
| PurchaseResponse.StockStatus.constructor | be_daeho/src/main/java/codehows/com/daehoint/dto/PurchaseAndReceiptResponse.java:222-235 | the all-arguments constructor holds the given row |
| PurchaseResponse.StockStatus.Merge | be_daeho/src/main/java/codehows/com/daehoint/dto/PurchaseAndReceiptResponse.java:237-241 | `merge(statusDTO)`: the three stock columns become null-as-0 sums and the category is kept |
| PurchaseResponse.MergeColumnsAdds | be_daeho/src/main/java/codehows/com/daehoint/dto/PurchaseAndReceiptResponse.java:237-241 | each merged stock column is the null-as-0 sum of the two values |
| PurchaseService.MergeDailyMaterialCosts | be_daeho/src/main/java/codehows/com/daehoint/service/PurchaseService.java:96-109 | the rows that are not ACCY or "제품" stay in order, followed by one row folding the removed ones |
| PurchaseService.FoldMaterialSnoc | be_daeho/src/main/java/codehows/com/daehoint/service/PurchaseService.java:98-103 | each removed row is merged into the folded row, in list order |
| PurchaseService.MergedMaterialRowSnoc | be_daeho/src/main/java/codehows/com/daehoint/service/PurchaseService.java:98-106 | a removed row adds its amounts to the folded row and sets the category "기타"; a kept row leaves the folded row unchanged |
| PurchaseService.MaterialMergePartition | be_daeho/src/main/java/codehows/com/daehoint/service/PurchaseService.java:96-109 | no ACCY or "제품" row remains, the kept and the removed rows together are the original rows, and the result has one row more than the kept ones |
| PurchaseService.MaterialKeptOrder | be_daeho/src/main/java/codehows/com/daehoint/service/PurchaseService.java:98-107 | the kept rows keep their relative order |
| PurchaseService.FoldMaterialSums | be_daeho/src/main/java/codehows/com/daehoint/service/PurchaseService.java:96-109 | each amount column of the folded row is the null-as-0 column sum over the removed rows, and null when nothing was removed |
| PurchaseService.MergedMaterialCategory | be_daeho/src/main/java/codehows/com/daehoint/service/PurchaseService.java:97-103 | the folded row's category is "기타" exactly when some row was removed, and null exactly when none was |
| PurchaseService.FoldMaterialKeepsTotals | be_daeho/src/main/java/codehows/com/daehoint/service/PurchaseService.java:96-109 | when every removed row's total is direct plus subcontract, so is the folded row's |
| PurchaseService.MergeStockStatuses | be_daeho/src/main/java/codehows/com/daehoint/service/PurchaseService.java:131-142 | the stock rows that are not ACCY or "제품" stay in order, followed by one row folding the removed ones |
| PurchaseService.MergedStockRowSnoc | be_daeho/src/main/java/codehows/com/daehoint/service/PurchaseService.java:133-139 | a removed stock row adds its three columns to the folded row; a kept row leaves it unchanged |
| PurchaseService.StockMergePartition | be_daeho/src/main/java/codehows/com/daehoint/service/PurchaseService.java:131-142 | no ACCY or "제품" stock row remains, kept and removed rows make up the original rows, and the folded row has no category |
| PurchaseService.FoldStockSums | be_daeho/src/main/java/codehows/com/daehoint/service/PurchaseService.java:131-142 | each column of the folded stock row is the null-as-0 column sum over the removed rows, all null when nothing was removed |
| PurchaseService.SearchPurchase | be_daeho/src/main/java/codehows/com/daehoint/service/PurchaseService.java:198-227 | the loop with the set of processed dates yields the search result: the in-range snapshots whose date no earlier in-range snapshot had |
| PurchaseService.SearchInRange | be_daeho/src/main/java/codehows/com/daehoint/service/PurchaseService.java:207-209 | every listed date lies between the start and the end date, both included |
| PurchaseService.SearchDates | be_daeho/src/main/java/codehows/com/daehoint/service/PurchaseService.java:206-223 | the listed dates are exactly the dates of the in-range snapshots |
| PurchaseService.SearchDistinctDates | be_daeho/src/main/java/codehows/com/daehoint/service/PurchaseService.java:211-220 | no date is listed twice |
| PurchaseService.SearchPrefix | be_daeho/src/main/java/codehows/com/daehoint/service/PurchaseService.java:206-223 | later snapshots never change the entries listed for earlier ones |
| PurchaseService.FirstSnapshotListed | be_daeho/src/main/java/codehows/com/daehoint/service/PurchaseService.java:211-220 | the first in-range snapshot of a date is listed with its own id |
| FlowService.CompletedRate | be_daeho/src/main/java/codehows/com/daehoint/service/FlowService.java:85-87 | 0 when the completed or the input quantity is null or the input is 0, otherwise completed over input as a percentage |
| FlowService.CompletedRateCases | be_daeho/src/main/java/codehows/com/daehoint/service/FlowService.java:85-87 | the guarded cases give 0, and a completed quantity between 0 and a positive input gives a rate between 0 and 100 |
| FlowService.InputCost | be_daeho/src/main/java/codehows/com/daehoint/service/FlowService.java:81-83 | the first status row's total performance amount, 0 without status rows or when that amount is null |
| FlowService.CreateProcessData | be_daeho/src/main/java/codehows/com/daehoint/service/FlowService.java:77-95 | no contract; stated by ProcessDataDefaults and CompletedRate |
| FlowService.ProcessDataDefaults | be_daeho/src/main/java/codehows/com/daehoint/service/FlowService.java:88-94 | null plan, input and completed quantities become 0 and present ones are copied; the input cost is that of the status rows |
| FlowService.ProcessDataMap | be_daeho/src/main/java/codehows/com/daehoint/service/FlowService.java:97-103 | no contract; stated by ProcessDataMapKeys and ProcessDataMapLastWins |
| FlowService.ProcessDataMapKeys | be_daeho/src/main/java/codehows/com/daehoint/service/FlowService.java:97-103 | the map has exactly one entry per item name occurring in the lot list |
| FlowService.ProcessDataMapLastWins | be_daeho/src/main/java/codehows/com/daehoint/service/FlowService.java:97-103 | the entry of a name is built from the last lot carrying that name |
| FlowService.LotProgress | be_daeho/src/main/java/codehows/com/daehoint/service/FlowService.java:105-110 | no contract; stated by LotProgressIsMean |
| FlowService.SumRatesBounds | be_daeho/src/main/java/codehows/com/daehoint/service/FlowService.java:105-110 | the sum of the completion rates lies between the count times the smallest and the count times the largest possible rate |
| FlowService.LotProgressIsMean | be_daeho/src/main/java/codehows/com/daehoint/service/FlowService.java:105-110 | the progress is 0 for an empty map and otherwise a mean: within the range of the completion rates |
| FlowService.DistinctByKey | be_daeho/src/main/java/codehows/com/daehoint/service/FlowService.java:164-167 | no contract; stated by DistinctByKeyUnique, DistinctByKeyFirsts and DistinctByKeyNull |
| FlowService.FilterDistinct | be_daeho/src/main/java/codehows/com/daehoint/service/FlowService.java:160-167 | the filter with its seen-set, as a loop, yields the key-deduplicated list, or fails on a null key |
| FlowService.KeysOfSnoc | be_daeho/src/main/java/codehows/com/daehoint/service/FlowService.java:164-167 | the keys seen after one more element are the earlier keys plus that element's key |
| FlowService.DistinctFailureSticks | be_daeho/src/main/java/codehows/com/daehoint/service/FlowService.java:164-167 | once a prefix fails, the whole list fails |
| FlowService.DistinctByKeyUnique | be_daeho/src/main/java/codehows/com/daehoint/service/FlowService.java:160-167 | the kept elements have pairwise distinct keys, they cover every key of the input, and each is the input's first element of its key |
| FlowService.DistinctByKeyFirsts | be_daeho/src/main/java/codehows/com/daehoint/service/FlowService.java:160-167 | the filtered list is exactly the input at the first position of each key, in input order |
| FlowService.FirstIndicesSpec | be_daeho/src/main/java/codehows/com/daehoint/service/FlowService.java:164-167 | the reference positions are increasing and are exactly the positions whose key no earlier element has |
| FlowService.DistinctByKeyNull | be_daeho/src/main/java/codehows/com/daehoint/service/FlowService.java:164-167 | a null key anywhere makes the filter throw (the concurrent key set refuses null) |
| PerformanceByProcess.ParseOrDefault | be_daeho/src/main/java/codehows/com/daehoint/service/PerformanceByProcessService.java:107-109 | 0 for a null or empty slot, otherwise `Integer.parseInt` of the text, which may throw |
| PerformanceByProcess.ParseOrDefaultCases | be_daeho/src/main/java/codehows/com/daehoint/service/PerformanceByProcessService.java:107-109 | null and empty give 0; a non-digit after the first character, or a first character that is neither a digit nor a sign, makes the parse throw |
| PerformanceByProcess.SetTimeList | be_daeho/src/main/java/codehows/com/daehoint/service/PerformanceByProcessService.java:77-91 | the eleven hourly slots, `time01` first |
| PerformanceByProcess.AddSlot | be_daeho/src/main/java/codehows/com/daehoint/service/PerformanceByProcessService.java:94-104 | one `+ parseOrDefault(slot)` in 32-bit int arithmetic, aborted by a failed parse |
| PerformanceByProcess.SetTimeTotal | be_daeho/src/main/java/codehows/com/daehoint/service/PerformanceByProcessService.java:93-105 | the eleven parsed slots added left to right stay within the int range |
| PerformanceByProcess.SumParsed | be_daeho/src/main/java/codehows/com/daehoint/service/PerformanceByProcessService.java:93-105 | the reference sum over a slot list stays within the int range |
| PerformanceByProcess.SumParsedSnoc | be_daeho/src/main/java/codehows/com/daehoint/service/PerformanceByProcessService.java:93-105 | the reference sum adds the slots one at a time, left to right |
| PerformanceByProcess.TimeTotalIsListSum | be_daeho/src/main/java/codehows/com/daehoint/service/PerformanceByProcessService.java:77-105 | the slot total is the reference sum over the slot list |
| PerformanceByProcess.SumParsedFails | be_daeho/src/main/java/codehows/com/daehoint/service/PerformanceByProcessService.java:93-109 | the total throws exactly when some slot fails to parse |
| PerformanceByProcess.SumParsedPlain | be_daeho/src/main/java/codehows/com/daehoint/service/PerformanceByProcessService.java:93-105 | when every slot parses to a value between 0 and a bound and the total cannot wrap, it is the plain sum, at most the slot count times the bound |
| PerformanceByProcess.ExtractQuantityData | be_daeho/src/main/java/codehows/com/daehoint/service/PerformanceByProcessService.java:140-166 | the loop over the lot's rows, with its local lists and counts, gives the quantities of the rows in order, or throws when a parse does |
| PerformanceByProcess.ExtractFailureSticks | be_daeho/src/main/java/codehows/com/daehoint/service/PerformanceByProcessService.java:146-164 | once the rows so far have thrown, the rest cannot undo it |
| PerformanceByProcess.ExtractIgnoresOthers | be_daeho/src/main/java/codehows/com/daehoint/service/PerformanceByProcessService.java:161-162 | rows of any kind other than "계획수량", "투입수량" and "완료수량" are skipped |
| PerformanceByProcess.StepParts | be_daeho/src/main/java/codehows/com/daehoint/service/PerformanceByProcessService.java:147-163 | a row of one kind sets that kind's hourly list and counts and leaves the other kinds' parts alone |
| PerformanceByProcess.LastRowWins | be_daeho/src/main/java/codehows/com/daehoint/service/PerformanceByProcessService.java:146-164 | of several rows of one kind, the last one decides that kind's part |
| PerformanceByProcess.FirstNameAt | be_daeho/src/main/java/codehows/com/daehoint/service/PerformanceByProcessService.java:62 | an alternative reported at a position is one of the process names and matches there between word boundaries |
| PerformanceByProcess.FirstNameAtNone | be_daeho/src/main/java/codehows/com/daehoint/service/PerformanceByProcessService.java:62 | no alternative is reported at a position exactly when none of them matches there |
| PerformanceByProcess.FindFromLeftmost | be_daeho/src/main/java/codehows/com/daehoint/service/PerformanceByProcessService.java:131-132 | `find` reports the leftmost position where an alternative matches, with the alternative the pattern tries first; without a report nothing matches |
| PerformanceByProcess.ReplaceAllWithoutMatch | be_daeho/src/main/java/codehows/com/daehoint/service/PerformanceByProcessService.java:133 | without a match the model name is left as it is |
| PerformanceByProcess.ReplaceAllCutsFirstMatch | be_daeho/src/main/java/codehows/com/daehoint/service/PerformanceByProcessService.java:133 | removal keeps the text before the first match and continues right after it |
| PerformanceByProcess.FetchProcessInfoCases | be_daeho/src/main/java/codehows/com/daehoint/service/PerformanceByProcessService.java:111-138 | with a lot result its department and item name are used and the model name is kept; without one the department follows the lot state ("작업대기", "데이터 추가중", "실적 반영 대기 중" or ""), and the process is the matched name or "" |
| PerformanceByProcess.GroupNonEmpty | be_daeho/src/main/java/codehows/com/daehoint/service/PerformanceByProcessService.java:195-196 | every lot id occurring in the rows has a non-empty group |
| PerformanceByProcess.GroupByLotIdPartition | be_daeho/src/main/java/codehows/com/daehoint/service/PerformanceByProcessService.java:192-200 | one response per distinct lot id; each group holds exactly the rows of its lot, and every row is in its lot's group |
| PerformanceByProcess.LotIdSetSize | be_daeho/src/main/java/codehows/com/daehoint/service/PerformanceByProcessService.java:195-196 | there are no more lot ids than rows |
| PerformanceByProcess.FetchProcessInfo | be_daeho/src/main/java/codehows/com/daehoint/service/PerformanceByProcessService.java:111-138 | no contract; stated by PerformanceByProcess.FetchProcessInfoCases |
| PerformanceByProcess.CreatePerformance | be_daeho/src/main/java/codehows/com/daehoint/service/PerformanceByProcessService.java:168-190 | no contract; requires a non-empty group of rows, which the grouping always supplies; stated by PerformanceByProcess.LotResponseFromFirstRow |
| PerformanceByProcess.PerformanceByLot | be_daeho/src/main/java/codehows/com/daehoint/service/PerformanceByProcessService.java:192-200 | no contract; stated by PerformanceByProcess.GroupByLotIdPartition and PerformanceByProcess.LotResponseFromFirstRow |
| PerformanceByProcess.LotResponseFromFirstRow | be_daeho/src/main/java/codehows/com/daehoint/service/PerformanceByProcessService.java:168-200 | for the first row of a lot: the lot has an entry; the entry holds a response exactly when the lot's rows parse; the response carries that row's lot state, the parsed quantities, and the department, process and model name fetched for that row's model name and state |
| HideColumns.InitializeVisibility | front_daeho/src/components/tools/HideColmuns.tsx:47-62 | no contract; stated by InitializeVisibilityKeys and InitializeVisibilityValue |
| HideColumns.RecordAllAppend | front_daeho/src/components/tools/HideColmuns.tsx:52-59 | the pass over two node lists is the pass over the second starting from the map the first left |
| HideColumns.RecordAllFrom | front_daeho/src/components/tools/HideColmuns.tsx:57 | `Object.assign` of the children's map onto the map so far equals continuing the pass from that map |
| HideColumns.InitializeVisibilityIsFlatPass | front_daeho/src/components/tools/HideColmuns.tsx:47-62 | the recursive initialisation is one left-to-right pass over the depth-first node list |
| HideColumns.VisitIsFlatPass | front_daeho/src/components/tools/HideColmuns.tsx:52-59 | one column's callback (its own field, then its children) is the pass over that column's depth-first nodes |
| HideColumns.RecordAllKeys | front_daeho/src/components/tools/HideColmuns.tsx:53-55 | the pass adds exactly the non-empty fields of the nodes as keys |
| HideColumns.RecordAllLast | front_daeho/src/components/tools/HideColmuns.tsx:53-55 | a field's entry is `!hide` of the last node, in depth-first order, carrying it |
| HideColumns.InitializeVisibilityKeys | front_daeho/src/components/tools/HideColmuns.tsx:47-62 | the initial map has one key per non-empty field at any depth and no other key |
| HideColumns.InitializeVisibilityValue | front_daeho/src/components/tools/HideColmuns.tsx:47-62 | a field's initial visibility is the negated `hide` of its last node in depth-first order |
| HideColumns.UpdateChildColumnsVisibility | front_daeho/src/components/tools/HideColmuns.tsx:103-116 | no contract; stated by UpdateChildColumnsVisibilityAt and UpdateChildColumnsVisibilityToggles |
| HideColumns.UpdateChildColumnsVisibilityAt | front_daeho/src/components/tools/HideColmuns.tsx:103-116 | the update keeps the number of columns and rewrites each column in place |
| HideColumns.ToggledAppend | front_daeho/src/components/tools/HideColmuns.tsx:108-115 | rewriting two lists rewrites their concatenation |
| HideColumns.UpdateChildColumnsVisibilityToggles | front_daeho/src/components/tools/HideColmuns.tsx:103-116 | after the update every depth-first node keeps its header, field and kind; its `hide` becomes `!visible` where the field is the toggled one and is unchanged elsewhere |
| HideColumns.UpdateColToggles | front_daeho/src/components/tools/HideColmuns.tsx:109-114 | the same for one column and its subtree |
| HideColumns.ToggleMap | front_daeho/src/components/tools/HideColmuns.tsx:95-98 | the toggled field flips (a missing field reads as hidden and becomes visible) and every other entry is kept |
| HideColumns.ToggleTwice | front_daeho/src/components/tools/HideColmuns.tsx:80-100 | toggling the same field twice restores what the map reads for it, and the map itself when the field was present |
| HideColumns.ColumnVisibility.constructor | front_daeho/src/components/tools/HideColmuns.tsx:72-74 | the state starts as the initial visibility of the given columns |
| HideColumns.ColumnVisibility.HandleColumnToggle | front_daeho/src/components/tools/HideColmuns.tsx:80-100 | the new visibility is the negated old entry; the map is toggled and the column tree rewritten as the two functions above describe |
| HideColumns.RenderColumnFilters | front_daeho/src/components/tools/HideColmuns.tsx:119-157 | no contract; stated by RenderFieldsInOrder, RenderCheckedAndLabels and RenderIsLabelledPaths |
| HideColumns.CheckboxFields | front_daeho/src/components/tools/HideColmuns.tsx:144-148 | the fields of the rendered checkboxes, in order |
| HideColumns.CheckboxFieldsAppend | front_daeho/src/components/tools/HideColmuns.tsx:123 | the checkbox fields of a concatenation are the concatenated fields |
| HideColumns.LeafFieldsAppend | front_daeho/src/components/tools/HideColmuns.tsx:123-156 | the leaf fields of a concatenation are the concatenated leaf fields |
| HideColumns.RenderFieldsInOrder | front_daeho/src/components/tools/HideColmuns.tsx:119-157 | one checkbox per non-group column with a field, at any depth, in depth-first order |
| HideColumns.RenderColFieldsInOrder | front_daeho/src/components/tools/HideColmuns.tsx:123-156 | the same for one column and its subtree |
| HideColumns.RenderCheckedAndLabels | front_daeho/src/components/tools/HideColmuns.tsx:119-157 | every checkbox is checked exactly when the map reads its field as visible, and under a breadcrumb its caption starts with the breadcrumb and " > " |
| HideColumns.RenderColCheckedAndLabels | front_daeho/src/components/tools/HideColmuns.tsx:124-153 | the same for one column and its subtree |
| HideColumns.RenderIsLabelledPaths | front_daeho/src/components/tools/HideColmuns.tsx:119-157 | the i-th checkbox belongs to the i-th leaf with a field in depth-first order: it toggles that field, reads its checked state from the map, and its caption is the breadcrumb of the leaf's ancestor group headers, " > " and the leaf's name (its header name, or its field when that is empty); under an empty breadcrumb the name alone |
| HideColumns.RenderColIsLabelledPaths | front_daeho/src/components/tools/HideColmuns.tsx:124-153 | the same for one column and its subtree, a group's header being prepended to its children's ancestor headers |
| HideColumns.BreadcrumbBelow | front_daeho/src/components/tools/HideColmuns.tsx:125-127 | below a non-empty breadcrumb every further group header is appended after " > ", an undefined header as "undefined" |
| HideColumns.BreadcrumbFromTop | front_daeho/src/components/tools/HideColmuns.tsx:125-127 | at the top the breadcrumb starts with the outermost header itself, and an undefined or empty outermost header leaves it empty for the next header to start |
| ProductionReportPage.HiddenFieldsByProduction | front_daeho/src/pages/ProcessProductionDailyReport.tsx:268-294 | exactly the four roles C, B, A and 관리자 have an entry; A and 관리자 hide nothing, B and C hide the nine cost columns |
| ProductionReportPage.GetFilteredColumnDefs | front_daeho/src/pages/ProcessProductionDailyReport.tsx:297-314 | no contract; stated by FilterKeepsAllButHiddenLeaves, SurvivorsHaveNoHiddenLeaf and FilterNothingIsIdentity |
| ProductionReportPage.SurvivorsAppend | front_daeho/src/pages/ProcessProductionDailyReport.tsx:297-314 | the surviving nodes of a concatenation are the concatenated survivors |
| ProductionReportPage.FilterKeepsAllButHiddenLeaves | front_daeho/src/pages/ProcessProductionDailyReport.tsx:297-314 | filtering keeps every group and every leaf whose field is not hidden, in depth-first order, and drops the hidden leaves |
| ProductionReportPage.FilterColKeeps | front_daeho/src/pages/ProcessProductionDailyReport.tsx:302-311 | the same for one column and its subtree |
| ProductionReportPage.SurvivorsHaveNoHiddenLeaf | front_daeho/src/pages/ProcessProductionDailyReport.tsx:309-314 | no surviving node is a leaf with a hidden field |
| ProductionReportPage.FilterNothingIsIdentity | front_daeho/src/pages/ProcessProductionDailyReport.tsx:297-314 | with no hidden fields the column tree is returned unchanged |
| ProductionReportPage.ProductionPerformanceStatusDef | front_daeho/src/pages/ProcessProductionDailyReport.tsx:319-326 | a missing, empty or unknown role sees the definitions unchanged; a known role sees them filtered by its hidden fields; a name inherited from Object.prototype throws exactly when some column has a field, and otherwise changes nothing |
| ProductionReportPage.UnrestrictedRoles | front_daeho/src/pages/ProcessProductionDailyReport.tsx:292-293 | roles A and 관리자 see every column |
| ProductionReportPage.InitialForm | front_daeho/src/pages/ProcessProductionDailyReport.tsx:252-257 | the form starts with the process name and three zeros, which pass validation |
| ProductionReportPage.ValidateData | front_daeho/src/pages/ProcessProductionDailyReport.tsx:391-397 | no contract; stated by ValidateDataIff |
| ProductionReportPage.ValidateDataIff | front_daeho/src/pages/ProcessProductionDailyReport.tsx:391-397 | the form fails validation exactly when one of the three inputs is null |
| ProcessStockPage.GroupByCategory | front_daeho/src/pages/ProcessStock.tsx:40-50 | one group per category in first-occurrence order, each holding exactly the rows of its category in input order |
| ProcessStockPage.ItemsOfAbsent | front_daeho/src/pages/ProcessStock.tsx:42-46 | a category no row carries has no rows |
| ProcessStockPage.CategoriesDistinct | front_daeho/src/pages/ProcessStock.tsx:42-46 | no category opens two groups |
| ProcessStockPage.EveryItemGrouped | front_daeho/src/pages/ProcessStock.tsx:40-50 | every row lands in the group of its own category |
| ProcessStockPage.CategoriesGrow | front_daeho/src/pages/ProcessStock.tsx:41-49 | a later row never removes a group |
| ProcessStockPage.GroupSizesAddItem | front_daeho/src/pages/ProcessStock.tsx:43-44 | a row counts toward exactly one of the listed categories |
| ProcessStockPage.GroupSizesAppendCategory | front_daeho/src/pages/ProcessStock.tsx:45-46 | a new group adds the size of its category |
| ProcessStockPage.GroupSizesTotal | front_daeho/src/pages/ProcessStock.tsx:40-50 | the group sizes add up to the number of rows: nothing is lost or duplicated |
| ExcelCells.ExcelData.constructor | be_daeho/src/main/java/codehows/com/daehoint/service/ExcelData.java:11-13 | a new map holds no cell |
| ExcelCells.ExcelData.AddData | be_daeho/src/main/java/codehows/com/daehoint/service/ExcelData.java:15-17 | the address now maps to the value (null included) and every other address is kept |
| ExcelCells.ExcelData.GetData | be_daeho/src/main/java/codehows/com/daehoint/service/ExcelData.java:19-21 | null for an address never added, the stored value otherwise |
| ExcelCells.ExcelData.GetDataSet | be_daeho/src/main/java/codehows/com/daehoint/service/ExcelData.java:23-25 | exactly the addresses present in the map |
| ExcelCells.Concat | be_daeho/src/main/java/codehows/com/daehoint/service/ExcelServiceImplProcess.java:73-74 | string concatenation with a null operand appends the text "null" |
| ExcelCells.CellsKeys | be_daeho/src/main/java/codehows/com/daehoint/service/ExcelData.java:15-17 | after a sequence of calls the map's addresses are exactly the addresses added |
| ExcelCells.CellsLastWins | be_daeho/src/main/java/codehows/com/daehoint/service/ExcelData.java:15-17 | an address holds the value of the last call that named it |
| ExcelCells.TwoPuts | be_daeho/src/main/java/codehows/com/daehoint/service/ExcelData.java:15-17 | two calls are two successive map updates; the second wins where the addresses coincide |
| ExcelCells.CellsSnoc | be_daeho/src/main/java/codehows/com/daehoint/service/ExcelData.java:15-17 | one more call updates its own address and leaves every other address as it was |
| ExcelLoss.Column | be_daeho/src/main/java/codehows/com/daehoint/service/ExcelServiceImplLoss.java:46-59 | each column has one cell per loss row |
| ExcelLoss.LossDataToTable | be_daeho/src/main/java/codehows/com/daehoint/service/ExcelServiceImplLoss.java:28-73 | ten columns, each the given column of the rows; a row without a total loss time throws, and the method throws exactly then |
| ExcelLoss.ColumnOf | be_daeho/src/main/java/codehows/com/daehoint/service/ExcelServiceImplLoss.java:46-59 | a list that agrees with a column cell by cell is that column |
| ExcelLoss.LossSummary | be_daeho/src/main/java/codehows/com/daehoint/service/ExcelServiceImplLoss.java:75-90 | three sums (worker, time, amount); they are missing, standing for the unboxing exception, exactly when a row has a null among these fields |
| ExcelLoss.ProvideExcelData | be_daeho/src/main/java/codehows/com/daehoint/service/ExcelServiceImplLoss.java:94-108 | a new map holding the two header cells |
| ExcelLoss.Numbering | be_daeho/src/main/java/codehows/com/daehoint/service/ExcelServiceImplLoss.java:48 | the running-number cell of row j reads back as j + 1 |
| ExcelLoss.ColumnSum | be_daeho/src/main/java/codehows/com/daehoint/service/ExcelServiceImplLoss.java:51-53 | the worker, time and amount columns add up to the sums of those fields |
| ExcelLoss.SummaryMatchesTable | be_daeho/src/main/java/codehows/com/daehoint/service/ExcelServiceImplLoss.java:61-89 | the summary under the table is the sum of the table's worker, time and amount columns, in that order |
| ExcelLoss.SummaryAppend | be_daeho/src/main/java/codehows/com/daehoint/service/ExcelServiceImplLoss.java:77-85 | the summary of two row lists together is the sum of their summaries |
| ExcelLoss.Empty | be_daeho/src/main/java/codehows/com/daehoint/service/ExcelServiceImplLoss.java:28-90 | no rows give ten empty columns and a zero summary |
| ExcelLoss.HeaderCells | be_daeho/src/main/java/codehows/com/daehoint/service/ExcelServiceImplLoss.java:96-105 | C4 and C5 hold the loss department and writer, or "데이터가 없음" when there is no standard record |
| ExcelProcessReport.ProcessSheet | be_daeho/src/main/java/codehows/com/daehoint/service/ExcelServiceImplProcess.java:109-138 | the sheet has one row per production line, the total row, the man-input and cost rows, and one row per technical problem and stop risk |
| ExcelProcessReport.AddData | be_daeho/src/main/java/codehows/com/daehoint/service/ExcelServiceImplProcess.java:109-138 | without a man-input or a cost element the export throws; otherwise it writes the sheet above from the first of each |
| ExcelProcessReport.ProvideExcelData | be_daeho/src/main/java/codehows/com/daehoint/service/ExcelServiceImplProcess.java:65-107 | null without a standard information record; otherwise a new map holding the category's signature cells |
| ExcelProcessReport.HeaderCells | be_daeho/src/main/java/codehows/com/daehoint/service/ExcelServiceImplProcess.java:71-104 | an unknown category writes no cell; MANUAL ASSY writes A4 and the lower-case a5; the other known categories write A4 and A5 |
| ExcelProcessReport.SignatureCategories | be_daeho/src/main/java/codehows/com/daehoint/service/ExcelServiceImplProcess.java:71-104 | exactly the eight assembly categories have a signature pair |
| ExcelProcessReport.TotalRates | be_daeho/src/main/java/codehows/com/daehoint/service/ExcelServiceImplProcess.java:195-197 | the total row's defect and achievement rates are 0 unless planned quantity sums positive, and otherwise the summed defective and completed quantities as percentages of the summed plan |
| ExcelProcessReport.TotalSums | be_daeho/src/main/java/codehows/com/daehoint/service/ExcelServiceImplProcess.java:192-208 | every other total is the plain column sum |
| ExcelProcessReport.ColumnTotalAppend | be_daeho/src/main/java/codehows/com/daehoint/service/ExcelServiceImplProcess.java:192-208 | column sums add over a split of the production rows |
| ExcelProcessReport.SheetNumbering | be_daeho/src/main/java/codehows/com/daehoint/service/ExcelServiceImplProcess.java:110-137 | production lines are numbered 1 .. n from row 10 on; every technical-problem and stop-risk row carries n + 1 |
| ExcelProcessReport.SheetIncreasing | be_daeho/src/main/java/codehows/com/daehoint/service/ExcelServiceImplProcess.java:110-137 | the rows go to strictly increasing indices, so none overwrites another |
| ExcelProcessStock.Totals | be_daeho/src/main/java/codehows/com/daehoint/service/ExcelProcessStock.java:111-126 | thirteen column sums |
| ExcelProcessStock.Categorized | be_daeho/src/main/java/codehows/com/daehoint/service/ExcelProcessStock.java:65-81 | one row list per key |
| ExcelProcessStock.IndexOf | be_daeho/src/main/java/codehows/com/daehoint/service/ExcelProcessStock.java:75-76 | the position of the first key equal to the category |
| ExcelProcessStock.CategorizeByCategory | be_daeho/src/main/java/codehows/com/daehoint/service/ExcelProcessStock.java:65-81 | the keys are the categories of the fixed order, each once; each list holds that category's rows in input order |
| ExcelProcessStock.Block | be_daeho/src/main/java/codehows/com/daehoint/service/ExcelProcessStock.java:96-101 | one row per stock line of a category, then its total row |
| ExcelProcessStock.AddData | be_daeho/src/main/java/codehows/com/daehoint/service/ExcelProcessStock.java:83-109 | the rows written are exactly the sheet: category blocks from row 10, five rows apart, then the grand total five rows further down |
| ExcelProcessStock.ProvideExcelData | be_daeho/src/main/java/codehows/com/daehoint/service/ExcelProcessStock.java:150-159 | null without a standard information record; otherwise a new map holding the two signature cells |
| ExcelProcessStock.ArrSortKeys | be_daeho/src/main/java/codehows/com/daehoint/service/ExcelProcessStock.java:84 | the six assembly categories are distinct, so each gets its own list, in the fixed order |
| ExcelProcessStock.DistinctMembers | be_daeho/src/main/java/codehows/com/daehoint/service/ExcelProcessStock.java:69-71 | the map's keys are the listed categories, each once |
| ExcelProcessStock.RowPlacement | be_daeho/src/main/java/codehows/com/daehoint/service/ExcelProcessStock.java:73-78 | a row is in the list of its own category and in no other; a row whose category is not a key is in none |
| ExcelProcessStock.TotalsAppend | be_daeho/src/main/java/codehows/com/daehoint/service/ExcelProcessStock.java:114-126 | column totals add over a split of the rows |
| ExcelProcessStock.GroupsSumSnoc | be_daeho/src/main/java/codehows/com/daehoint/service/ExcelProcessStock.java:73-78 | one more row grows only the list of its category, and only when that category is a key |
| ExcelProcessStock.GroupsCoverInput | be_daeho/src/main/java/codehows/com/daehoint/service/ExcelProcessStock.java:65-81 | every column of the input is its sum over the category lists plus its sum over the rows in no category |
| ExcelProcessStock.ZeroGroups | be_daeho/src/main/java/codehows/com/daehoint/service/ExcelProcessStock.java:69-71 | with no rows every list sums to 0 |
| ExcelProcessStock.GrandTotalCoversAll | be_daeho/src/main/java/codehows/com/daehoint/service/ExcelProcessStock.java:106-108 | the grand total row, taken over all rows, equals the category totals plus the rows that belong to no category |
| ExcelProcessStock.BlockNumbering | be_daeho/src/main/java/codehows/com/daehoint/service/ExcelProcessStock.java:89-101 | within a block the rows are numbered 1 .. n on consecutive rows, followed by the block total |
| ExcelProcessStock.BlocksIncreasing | be_daeho/src/main/java/codehows/com/daehoint/service/ExcelProcessStock.java:88-104 | the blocks go to strictly increasing row indices inside their range |
| ExcelProcessStock.RowAfterGrows | be_daeho/src/main/java/codehows/com/daehoint/service/ExcelProcessStock.java:88-104 | the row index never moves backwards |
| ExcelProcessStock.SheetIncreasing | be_daeho/src/main/java/codehows/com/daehoint/service/ExcelProcessStock.java:83-109 | no row of the sheet overwrites another |
| ExcelProcessStock.HeaderCells | be_daeho/src/main/java/codehows/com/daehoint/service/ExcelProcessStock.java:156-157 | A4 and A5 hold the prefixed process-stock department and writer, with "null" for a missing value |
| ExcelPurchase.PurchaseAndReceipt.constructor | be_daeho/src/main/java/codehows/com/daehoint/dto/PurchaseAndReceiptResponse.java:15-20 | the response holds the five given tables; the receipt and plan tables may be null |
| ExcelPurchase.PurchaseAndReceipt.AddTotals | be_daeho/src/main/java/codehows/com/daehoint/service/ExcelParchase.java:219-232 | each table gets the total of its own rows appended; a null receipt or plan table stays null |
| ExcelPurchase.TotalRowCells | be_daeho/src/main/java/codehows/com/daehoint/service/ExcelParchase.java:128-167 | the material total row is labelled "합계", leaves the two plan fields null, and every amount cell is the null-as-0 sum of its column |
| ExcelPurchase.PurchaseTotalCells | be_daeho/src/main/java/codehows/com/daehoint/service/ExcelParchase.java:169-176 | the plan total sums the purchase plan and the cost ratio and leaves the sales plan and the order amount null |
| ExcelPurchase.ReceiptTotalCells | be_daeho/src/main/java/codehows/com/daehoint/service/ExcelParchase.java:178-186 | each of the four receipt totals is the null-as-0 sum of its column |
| ExcelPurchase.StockTotalCells | be_daeho/src/main/java/codehows/com/daehoint/service/ExcelParchase.java:188-195 | each of the three stock totals is the null-as-0 sum of its column |
| ExcelPurchase.WarehouseTotalCells | be_daeho/src/main/java/codehows/com/daehoint/service/ExcelParchase.java:197-216 | each of the fifteen warehouse totals is the null-as-0 sum of its column |
| ExcelPurchase.EmptyTotals | be_daeho/src/main/java/codehows/com/daehoint/service/ExcelParchase.java:128-132 | a table without rows gets a total row of zeros, not nulls |
| ExcelPurchase.TotalRowAppend | be_daeho/src/main/java/codehows/com/daehoint/service/ExcelParchase.java:128-167 | the total of two runs of rows is the cell-by-cell sum of their totals |
| ExcelPurchase.SumsKeepTotals | be_daeho/src/main/java/codehows/com/daehoint/service/ExcelParchase.java:128-132 | when each row's total column is its direct plus its subcontract column (nulls as 0), the column sums satisfy the same relation |
| ExcelPurchase.TotalRowKeepsTotals | be_daeho/src/main/java/codehows/com/daehoint/service/ExcelParchase.java:136-167 | under that condition the total row is consistent in the same way |
| ExcelPurchase.CreateTotalRow | be_daeho/src/main/java/codehows/com/daehoint/service/ExcelParchase.java:136-167 | no contract; stated by ExcelPurchase.TotalRowCells, ExcelPurchase.EmptyTotals, ExcelPurchase.TotalRowAppend, ExcelPurchase.TotalRowKeepsTotals |
| ExcelPurchase.CreatePurchaseTotalRow | be_daeho/src/main/java/codehows/com/daehoint/service/ExcelParchase.java:169-176 | no contract; stated by ExcelPurchase.PurchaseTotalCells |
| ExcelPurchase.CreateReceiptTotal | be_daeho/src/main/java/codehows/com/daehoint/service/ExcelParchase.java:178-186 | no contract; stated by ExcelPurchase.ReceiptTotalCells |
| ExcelPurchase.CreateStockTotal | be_daeho/src/main/java/codehows/com/daehoint/service/ExcelParchase.java:188-195 | no contract; stated by ExcelPurchase.StockTotalCells, ExcelPurchase.EmptyTotals |
| ExcelPurchase.CreateWarehouseTotal | be_daeho/src/main/java/codehows/com/daehoint/service/ExcelParchase.java:197-216 | no contract; stated by ExcelPurchase.WarehouseTotalCells, ExcelPurchase.EmptyTotals |
| MailLog.Counts | be_daeho/src/main/java/codehows/com/daehoint/service/MailService.java:120-145 | six counters, one per marker |
| MailLog.SortLog | be_daeho/src/main/java/codehows/com/daehoint/service/MailService.java:117-156 | the digest is the header plus one line per marker giving how many log lines (split on newlines, trailing empty pieces dropped) contain that marker |
| MailLog.CountBound | be_daeho/src/main/java/codehows/com/daehoint/service/MailService.java:126-145 | no counter exceeds the number of lines |
| MailLog.CountAbsent | be_daeho/src/main/java/codehows/com/daehoint/service/MailService.java:126-145 | a marker no line contains counts 0 |
| MailLog.CountAppend | be_daeho/src/main/java/codehows/com/daehoint/service/MailService.java:126-145 | the counts over two runs of lines add up |
| MailLog.TwoMarkersOneLine | be_daeho/src/main/java/codehows/com/daehoint/service/MailService.java:127-144 | the six tests are independent: one line holding two markers counts for both |
| MailLog.DigestLines | be_daeho/src/main/java/codehows/com/daehoint/service/MailService.java:147-155 | the digest reads back line by line as the header and the six marker lines in their fixed order, each ended by a newline |
| MailLog.CountLines | be_daeho/src/main/java/codehows/com/daehoint/service/MailService.java:126-145 | no contract; stated by MailLog.CountBound, MailLog.CountAbsent, MailLog.CountAppend, MailLog.TwoMarkersOneLine |
| MailLog.Digest | be_daeho/src/main/java/codehows/com/daehoint/service/MailService.java:147-155 | no contract; stated by MailLog.DigestLines |
| AccessLogging.ClientIp | be_daeho/src/main/java/codehows/com/daehoint/annotation/LoggingAspect.java:59-82 | no request attributes throws; otherwise a usable X-Real-IP wins when X-Forwarded-For is unusable, and the remote address when both are |
| AccessLogging.UserId | be_daeho/src/main/java/codehows/com/daehoint/annotation/LoggingAspect.java:85-91 | the authenticated name, or "인가되지 않은 인원" without authentication |
| AccessLogging.ProcessType | be_daeho/src/main/java/codehows/com/daehoint/annotation/LoggingAspect.java:132-141 | "" without an argument array; otherwise the first string argument, or "" when there is none |
| AccessLogging.AccessPage | be_daeho/src/main/java/codehows/com/daehoint/annotation/LoggingAspect.java:132-145 | the access page is the process type followed by the annotation's page |
| AccessLogging.DownloadFileName | be_daeho/src/main/java/codehows/com/daehoint/annotation/LoggingAspect.java:163-173 | the download name is the process type followed by the annotation's file name |
| AccessLogging.ForwardedFirst | be_daeho/src/main/java/codehows/com/daehoint/annotation/LoggingAspect.java:69-71 | a usable X-Forwarded-For header yields a comma-free prefix that ends at the header's end or at a comma |
| AccessLogging.ForwardedList | be_daeho/src/main/java/codehows/com/daehoint/annotation/LoggingAspect.java:69-71 | a header "first,rest" yields exactly the first address |
| AccessLogging.CommasOnlyThrows | be_daeho/src/main/java/codehows/com/daehoint/annotation/LoggingAspect.java:69-71 | a header made of commas passes the guard, but its split is empty, so taking element 0 throws |
| AccessLogging.UnknownIsSkipped | be_daeho/src/main/java/codehows/com/daehoint/annotation/LoggingAspect.java:69 | "unknown" in any letter case is treated like a missing header |
| AccessLogging.FirstTextIsFirst | be_daeho/src/main/java/codehows/com/daehoint/annotation/LoggingAspect.java:135-140 | the loop stops at the first string argument, skipping every other argument before it |
| AccessLogging.NoTextIsEmpty | be_daeho/src/main/java/codehows/com/daehoint/annotation/LoggingAspect.java:133-141 | without a string argument the process type stays "" |
| AccessLogging.FirstText | be_daeho/src/main/java/codehows/com/daehoint/annotation/LoggingAspect.java:133-140 | no contract; stated by AccessLogging.FirstTextIsFirst, AccessLogging.NoTextIsEmpty |
| BearerFilter.AccessToken | be_daeho/src/main/java/codehows/com/daehoint/config/jwt/JwtFilter.java:38-43 | a token exactly when the header is present and starts with "Bearer ", and then the header is "Bearer " followed by the token |
| BearerFilter.SecurityContext.constructor | be_daeho/src/main/java/codehows/com/daehoint/config/jwt/JwtFilter.java:31 | a fresh security context holds no authentication |
| BearerFilter.SecurityContext.Filter | be_daeho/src/main/java/codehows/com/daehoint/config/jwt/JwtFilter.java:23-35 | a present, valid token sets the authentication the provider derives from it; otherwise the context is unchanged; the chain always proceeds |
| BearerFilter.TokenRoundTrip | be_daeho/src/main/java/codehows/com/daehoint/config/jwt/JwtFilter.java:38-43 | prefixing "Bearer " and extracting gives the token back |
| BearerFilter.NoToken | be_daeho/src/main/java/codehows/com/daehoint/config/jwt/JwtFilter.java:39 | no header, a lower-case scheme, or "Bearer" without its space gives no token |
| AccessDenied.RefreshTokenFromCookies | be_daeho/src/main/java/codehows/com/daehoint/config/jwt/JwtAccessDeniedHandler.java:57-67 | null without cookies; otherwise the value of the first cookie named "refreshToken", or null |
| AccessDenied.Handle | be_daeho/src/main/java/codehows/com/daehoint/config/jwt/JwtAccessDeniedHandler.java:41-54 | 403 "Refresh token is missing" without a refresh token, 401 "Unauthorized" with one |
| AccessDenied.FirstCookieWins | be_daeho/src/main/java/codehows/com/daehoint/config/jwt/JwtAccessDeniedHandler.java:61-65 | the first cookie of that name decides; later ones are never read |
| AccessDenied.NoCookie | be_daeho/src/main/java/codehows/com/daehoint/config/jwt/JwtAccessDeniedHandler.java:66 | without a cookie of that name the lookup gives null |
| AccessDenied.NullFirstValueIsMissing | be_daeho/src/main/java/codehows/com/daehoint/config/jwt/JwtAccessDeniedHandler.java:62-63 | a first refresh-token cookie with a null value counts as missing even when a later one has a value |
| Numerals.ParseInt | be_daeho/src/main/java/codehows/com/daehoint/service/PerformanceByProcessService.java:108 | a parsed value always lies in the 32-bit int range; anything else is the format exception |
| Numerals.DigitChar | be_daeho/src/main/java/codehows/com/daehoint/service/ExcelServiceImplLoss.java:48 | the character of a digit reads back as that digit |
| Numerals.ShowNat | be_daeho/src/main/java/codehows/com/daehoint/service/ExcelServiceImplLoss.java:48 | a non-empty string of decimal digits |
| Numerals.ShowNatValue | be_daeho/src/main/java/codehows/com/daehoint/service/ExcelServiceImplLoss.java:48 | the digits printed for a number have that number as their value |
| Numerals.ParseShowRoundTrip | be_daeho/src/main/java/codehows/com/daehoint/service/PerformanceByProcessService.java:150-159 | parsing the decimal text of any int gives that int back |
| AccessDenied.FindCookie | be_daeho/src/main/java/codehows/com/daehoint/config/jwt/JwtAccessDeniedHandler.java:57-67 | no contract; stated by AccessDenied.FirstCookieWins, AccessDenied.NoCookie, AccessDenied.NullFirstValueIsMissing |
| Roles.Name | be_daeho/src/main/java/codehows/com/daehoint/constants/Authority.java:29-31 | every constant's identifier starts with "ROLE_" |
| Roles.ToString | be_daeho/src/main/java/codehows/com/daehoint/constants/Authority.java:44-46 | toString is the identifier with the "ROLE_" prefix removed |
| Roles.DisplayTexts | be_daeho/src/main/java/codehows/com/daehoint/constants/Authority.java:44-46 | the display texts are "A", "B", "C" and "ADMIN" |
| Roles.Injective | be_daeho/src/main/java/codehows/com/daehoint/constants/Authority.java:29-46 | distinct roles have distinct display texts and distinct Korean names |
| Roles.KoreanAndDisplay | be_daeho/src/main/java/codehows/com/daehoint/constants/Authority.java:29-46 | the Korean name equals the display text exactly for the three non-administrator roles |
| Roles.KoreanName | be_daeho/src/main/java/codehows/com/daehoint/constants/Authority.java:29-46 | no contract; stated by Roles.Injective, Roles.KoreanAndDisplay |

## Left out

- IEEE-754 arithmetic. Doubles are exact reals, so rounding error, NaN and Infinity are not modelled; an unguarded division by zero is `None` (`Rates.RawPercent`).
- Unboxing a null `Double`. Where a formula reads a nullable field through a primitive getter, the model reads null as 0; the Java code throws a `NullPointerException` there instead. Where the throw decides control flow, it is modelled as `None`: the loss table, the loss summary, `getOutQty`, `parseInt`, `extractQuantityData`, `distinctByKey` and the client-IP split. The places read as 0 are listed below, one member per line.
- ProcessManInput.AvailablePersonnel, ProcessManInput.AvailableManHours, ProcessManInput.OvertimePersonnel and ProcessManInput.OvertimeManHours: a null column of a present previous report reads as 0 (DailyProcessReportManInputFormula.java:33-127 unbox it).
- MfgCost.TotalEstimateCost: a null estimate cost total of a report reads as 0, where `mapToDouble(ProcessProductionReport::getEstimateCostTotal)` (DailyMainReportMFGCost.java:64) unboxes it; the other main-report totals are null-safe in the source too.
- ProcessStatus.Qty: without a daily row, a null lot quantity reads as 0, where `return lotResultList.getQty()` (DailyProcessReportStatusFormula.java:28) unboxes and throws.
- ProcessStatus.DefectQty: without a daily row, a null defect quantity reads as 0 (DailyProcessReportStatusFormula.java:45 throws).
- ProcessStatus.OutQty: without a daily row, a null output of a lot that is neither finished nor in production reads as 0 (DailyProcessReportStatusFormula.java:61 throws); a null lot state is not modelled, where `getLotState().equals` throws.
- ProcessStatus.CalcProcessingCost: a null parts-list processing cost and a null lot standard time read as 0 (DailyProcessReportStatusFormula.java:87-92 unbox both).
- MfgCost.IndirectPersonnelCost, MfgCost.GeneralManagementCost, MfgCost.SalesCost, MfgCost.EquipmentDepreciationCost and MfgCost.OtherCost: a present expense entry with a null amount reads as 0 (DailyMainReportMFGCost.java:29-49 unbox it).
- Null `String`s in a `switch` or a regular-expression match throw in Java and are taken as non-null in the model: the export category in ExcelProcessReport.ProvideExcelData (`switch (category)`, ExcelServiceImplProcess.java:71), the row kind in PerformanceByProcess.ExtractQuantityData (`switch (getGubunName())`, PerformanceByProcessService.java:147), and the model name and lot state in PerformanceByProcess.FetchProcessInfo (`matcher(modelName)` and `switch (lotState)`, PerformanceByProcessService.java:124-125).
- DailyProcessService.DailySources and DailyProcessService.CreateProductionData: the daily row's lot state is taken as non-null; `getLotState().equals("작업대기")` (DailyProcessReportService.java:116) throws on a null one.
- DailyProcessService.GetOutQty and DailyProcessService.GetOutQtyCases: the lot result's state is taken as non-null; `getLotState().equals` (DailyProcessReportService.java:216 and 218) throws on a null one. Only the null completed quantity is modelled as `None`.
- DailyProcessService.CreateDailyProcessReportResponse and DailyProcessService.LossPartition: a loss's reason is taken as non-null; `getLossReason().equals("ISSUE")` (DailyProcessReportService.java:521) throws on a null one.
- ProcessManInput.StopManHours, ProcessManInput.ReworkManHours and ProcessManInput.StopPlusReworkIsTotalLoss: a loss's reason is taken as non-null; `getLossReason().equals("재작업")` (DailyProcessReportManInputFormula.java:51 and 61) throws on a null one.
- PerformanceByProcess.PerformanceByLot: a daily row's lot id is taken as non-null; `groupingBy(ProductionDailyList::getLotId)` (PerformanceByProcessService.java:196) throws on a null key.
- PurchaseResponse.DailyMaterialCost.ComputeWeekly: given a list of days, a null daily direct or subcontract column of the row reads as 0, where `+ dailyDirectTransactionAmount` and its siblings (PurchaseAndReceiptResponse.java:128-155) unbox it. A row built by NewDailyMaterialCost never has one; a row from the no-argument constructor can.
- ProcessStatus.DailyRowDecides: the quantity functions require a daily row or a lot result; with both null the Java code throws, and that path is not modelled.
- PurchaseService.MergeDailyMaterialCosts: requires every row to carry a category; with a null category `getCategory().equals` throws, and that path is not modelled.
- PurchaseService.MergeStockStatuses: requires every row to carry a category, for the same reason.
- Attendance.TotalPersonnelIsSum: states the plain sum only when the partial sums fit in `int`; beyond that the code wraps around, which `Attendance.TotalPersonnelWraps` states.
- `Double.parseDouble`, `Double.toString` and `String.valueOf(double)` are parameters (`parseDouble`, `showDouble`). Only their use is modelled, not their text format.
- Letter case and digits are ASCII only: `equalsIgnoreCase`, the `\b` word boundaries and the digit tests have no Unicode tables.
- Clock and calendar helpers (`getData`, `getDateTime`, `calcDate`, `getFirstDayOfWeek`, `isSameTimeSlot`, the front end's current month and week) are left out. A day of the week and a creation day are plain inputs.
- The string formatting of `lotProgress` and `toFixed` is left out; only the values are modelled.
- `parseJWT` decoding is left out. Only its null check and its three-part check are modelled; the Base64, URI and JSON decoding are foreign calls.
- The regular expression of `fetchProcessInfo` is modelled as a leftmost search over its fixed list of process names with word boundaries, not as general Java regex semantics.
- `HashMap` iteration order is left out. The flow service's process map is a map, and its mean does not depend on order. `LinkedHashMap` and list order are modelled wherever the code depends on them.
- DTO objects become values, in two ways:
  - Records that only carry data are datatypes; only the objects the code mutates are classes.
  - MapStruct conversions between entities and DTOs are the identity on the fields read.
- Database access is left out: repositories, MyBatis mappers and `findById`. Their results are inputs to the model. Where a lookup can return null and the code dereferences it, the null is an input too: the month's plan in PurchaseResponse.NewDailyMaterialCost and the report in DailyProcessService.UpdateAdditionalData. This includes `manRate` and `processUsageSubMaterialSum` of the production-cost formula, which consist of a repository lookup only.
- Apache POI is left out: cell styles, merged cells, `shiftRows`, column widths, `fillExcelSheet`, and writing the workbook to the HTTP response. The sheets are modelled as the rows and cells written, with their indices.
- `fillExcelSheet` after a null `provideExcelData` throws in the export; the model stops at the null result.
- ExcelPurchase.PurchaseAndReceipt.constructor: the daily, stock and warehouse lists are taken as non-null, as `PurchaseService` always builds them (PurchaseService.java:163-165); the receipt and plan lists may be null.
- MailLog.SortLog: the six `int` counters are unbounded; a log with more than 2^31 - 1 matching lines, which would wrap, is not modelled.
- The security layer is left out: `TokenProvider` validation and authentication, the Spring `SecurityContextHolder` and the `HttpServletResponse` are parameters or small state classes. JWT cryptography, `MemberService`, the scheduler, the holiday API, logging persistence and mail sending are outside the model.
- The pages, charts, modals, the API client and the context providers of the front end are UI and network code and are left out. Only the column-tree functions, the total rows and the grouping are modelled.

## Findings

| source | as written | input that shows it | evidently intended | confidence | as-written member | corrected member |
|---|---|---|---|---|---|---|
| be_daeho/src/main/java/codehows/com/daehoint/formula/DailyProcessReportManInputFormula.java:130-132 | the additional input rate returns 0 when the overtime (the numerator) is 0 and divides by the available man-hours otherwise | available man-hours 0, overtime 2: the division by zero gives Infinity | guard on the denominator, so 0 without available man-hours, as the main report does at DailyMainReportManInputFormula.java:118-120 | not executed | ProcessManInput.AdditionalInputRateAsWrittenDividesByZero | ProcessManInput.AdditionalInputRateCorrected |
