/**
 * The man-hour formulas of the process production report: available, standard, stop and rework
 * man-hours, the chain workload → actual → working, the efficiency and rate percentages, and the
 * flux-equipment figures that only the DIP line reports.
 */
module ProcessManInput {
  import opened Wrappers
  import opened Sums
  import opened Rates
  import E = Entities

  /** The loss reason that marks a rework loss. */
  const Rework: string := "재작업"

  /** Available personnel of the previous report; no report gives 0. */
  function AvailablePersonnel(report: Option<E.ProcessReport>): real
  {
    if report.None? then 0.0 else Val(E.Column(report.value.values, E.AvailablePersonnel))
  }

  /** Available man-hours of the previous report; no report gives 0. */
  function AvailableManHours(report: Option<E.ProcessReport>): real
  {
    if report.None? then 0.0 else Val(E.Column(report.value.values, E.AvailableManHours))
  }

  function OvertimePersonnel(report: Option<E.ProcessReport>): real
  {
    if report.None? then 0.0 else Val(E.Column(report.value.values, E.OvertimePersonnel))
  }

  function OvertimeManHours(report: Option<E.ProcessReport>): real
  {
    if report.None? then 0.0 else Val(E.Column(report.value.values, E.OvertimeManHours))
  }

  function StandardTerm(s: E.PerformanceStatus): real
  {
    Val(s.manHours) * Val(s.completedQuantity)
  }

  /** Standard man-hours: each lot's standard time multiplied by its completed quantity, summed. */
  function StandardManHours(status: seq<E.PerformanceStatus>): real
  {
    SumBy(status, StandardTerm)
  }

  function StopTerm(l: E.WorkLoss): real
  {
    if l.lossReason != Rework then Val(l.lossAmount) else 0.0
  }

  function ReworkTerm(l: E.WorkLoss): real
  {
    if l.lossReason == Rework then Val(l.lossAmount) else 0.0
  }

  function LossAmount(l: E.WorkLoss): real
  {
    Val(l.lossAmount)
  }

  /** Stop man-hours: the loss amounts of every loss that is not a rework. */
  function StopManHours(losses: seq<E.WorkLoss>): real
  {
    SumBy(losses, StopTerm)
  }

  /** Rework man-hours: the loss amounts of the rework losses. */
  function ReworkManHours(losses: seq<E.WorkLoss>): real
  {
    SumBy(losses, ReworkTerm)
  }

  function NonProductiveManHours(stop: real, rework: real): real
  {
    stop + rework
  }

  function WorkloadManHours(available: real, nonProductive: real): real
  {
    if available != 0.0 then available - nonProductive else 0.0
  }

  function ActualManHours(workload: real, stop: real): real
  {
    if workload != 0.0 then workload - stop else 0.0
  }

  function WorkingManHours(actual: real, rework: real): real
  {
    if actual != 0.0 then actual - rework else 0.0
  }

  /** Work efficiency: standard over workload man-hours, guarded by a positive workload. */
  function WorkEfficiency(workload: real, standard: real): real
  {
    if workload > 0.0 then Percent(standard, workload) else 0.0
  }

  function ActualEfficiency(actual: real, standard: real): real
  {
    GuardedPercent(standard, actual)
  }

  function LossRate(available: real, stop: real, rework: real): real
  {
    GuardedPercent(stop + rework, available)
  }

  /**
   * Man-hour input rate: 100 for a zero workload, otherwise workload over available man-hours;
   * the division itself is unguarded.
   */
  function ManHourInputRate(workload: real, available: real): Option<real>
  {
    if workload == 0.0 then Some(100.0) else RawPercent(workload, available)
  }

  function ManHourOperationRate(workload: real, working: real): real
  {
    GuardedPercent(working, workload)
  }

  function OverallManHourEfficiency(work: real, input: real, operation: real): real
  {
    if work > 0.0 && input > 0.0 && operation > 0.0 then (work + input + operation) / 3.0 else 0.0
  }

  /**
   * The additional input rate as the code computes it: the guard tests the overtime man-hours,
   * the numerator, so a zero available man-hours with overtime divides by zero.
   */
  function AdditionalInputRateAsWritten(available: real, overtime: real): Option<real>
  {
    if overtime == 0.0 then Some(0.0) else RawPercent(overtime, available)
  }

  /** The additional input rate guarded by its denominator, as the main report computes it. */
  function AdditionalInputRate(available: real, overtime: real): real
  {
    GuardedPercent(overtime, available)
  }

  /** Scheduled flux-equipment hours: the DIP line runs 4 hours on Friday and 9 otherwise. */
  function FluxOnTime(day: E.DayOfWeek, category: E.Category): real
  {
    if category == E.DIP then (if day == E.Friday then 4.0 else 9.0) else 0.0
  }

  function EquipmentUseTime(d: E.DailyRow): Option<real>
  {
    d.equipmentUseTime
  }

  /** Flux operating time: the equipment use time of the DIP daily list. */
  function FluxOperationTime(daily: seq<E.DailyRow>, category: E.Category): real
  {
    if category == E.DIP then SumOptBy(daily, EquipmentUseTime) else 0.0
  }

  /** Flux operating rate: operating over scheduled time; the division is unguarded. */
  function FluxOperationRate(onTime: real, operationTime: real, category: E.Category): Option<real>
  {
    if category == E.DIP then (if operationTime == 0.0 then Some(0.0) else RawPercent(operationTime, onTime))
    else Some(0.0)
  }

  // ---------------------------------------------------------------------------------------------
  // Properties

  /** Every loss is either a stop or a rework, so the two add up to all the loss amounts. */
  lemma {:induction false} StopPlusReworkIsTotalLoss(losses: seq<E.WorkLoss>)
    ensures StopManHours(losses) + ReworkManHours(losses) == SumBy(losses, LossAmount)
    ensures NonProductiveManHours(StopManHours(losses), ReworkManHours(losses)) == SumBy(losses, LossAmount)
  {
    SumByAdd(losses, StopTerm, ReworkTerm, LossAmount);
  }

  /** Standard man-hours of two status lists together are the sum over each. */
  lemma StandardManHoursAppend(xs: seq<E.PerformanceStatus>, ys: seq<E.PerformanceStatus>)
    ensures StandardManHours(xs + ys) == StandardManHours(xs) + StandardManHours(ys)
  {
    SumByAppend(xs, ys, StandardTerm);
  }

  /** A status with a null standard time or completed quantity contributes nothing. */
  lemma StandardManHoursNullTerm(xs: seq<E.PerformanceStatus>, s: E.PerformanceStatus)
    requires s.manHours.None? || s.completedQuantity.None?
    ensures StandardManHours(xs + [s]) == StandardManHours(xs)
  {
    assert (xs + [s])[..|xs + [s]| - 1] == xs;
  }

  /**
   * The workload → actual → working chain: once every step is non-zero, stop and rework
   * man-hours have each been subtracted twice (once inside the non-productive hours).
   */
  lemma ManHourChain(available: real, stop: real, rework: real)
    requires available != 0.0
    requires WorkloadManHours(available, NonProductiveManHours(stop, rework)) != 0.0
    requires ActualManHours(WorkloadManHours(available, NonProductiveManHours(stop, rework)), stop) != 0.0
    ensures WorkingManHours(ActualManHours(WorkloadManHours(available, NonProductiveManHours(stop, rework)), stop), rework)
            == available - 2.0 * (stop + rework)
  {
  }

  /** A zero first argument stops the chain: each later step is 0 too. */
  lemma ZeroAvailableStopsChain(stop: real, rework: real)
    ensures WorkloadManHours(0.0, NonProductiveManHours(stop, rework)) == 0.0
    ensures ActualManHours(WorkloadManHours(0.0, NonProductiveManHours(stop, rework)), stop) == 0.0
    ensures WorkingManHours(ActualManHours(WorkloadManHours(0.0, NonProductiveManHours(stop, rework)), stop), rework) == 0.0
  {
  }

  /**
   * The input rate is used on the workload it was computed from, and then never divides by zero:
   * a zero available man-hours makes the workload 0 and the rate 100.
   */
  lemma ComposedInputRateDefined(available: real, nonProductive: real)
    ensures ManHourInputRate(WorkloadManHours(available, nonProductive), available).Some?
    ensures available == 0.0 ==> ManHourInputRate(WorkloadManHours(available, nonProductive), available) == Some(100.0)
    ensures nonProductive == 0.0 && available != 0.0 ==> ManHourInputRate(WorkloadManHours(available, nonProductive), available) == Some(100.0)
  {
    if available != 0.0 && available - nonProductive != 0.0 {
      var r := ManHourInputRate(available - nonProductive, available);
      assert r.value * available == (available - nonProductive) * 100.0;
      if nonProductive == 0.0 {
        assert available / available == 1.0;
      }
    }
  }

  /** The guarded rates are 0 exactly when their guard fails, and a percentage otherwise. */
  lemma RatesGuarded(workload: real, actual: real, available: real, standard: real, stop: real, rework: real, working: real)
    ensures workload <= 0.0 ==> WorkEfficiency(workload, standard) == 0.0
    ensures workload > 0.0 ==> WorkEfficiency(workload, standard) * workload == standard * 100.0
    ensures actual == 0.0 ==> ActualEfficiency(actual, standard) == 0.0
    ensures available == 0.0 ==> LossRate(available, stop, rework) == 0.0
    ensures available != 0.0 ==> LossRate(available, stop, rework) * available == (stop + rework) * 100.0
    ensures workload == 0.0 ==> ManHourOperationRate(workload, working) == 0.0
  {
  }

  /** The overall efficiency is positive exactly when all three rates are, and then lies between them. */
  lemma OverallEfficiencyIsMean(work: real, input: real, operation: real)
    ensures OverallManHourEfficiency(work, input, operation) > 0.0 <==> (work > 0.0 && input > 0.0 && operation > 0.0)
    ensures OverallManHourEfficiency(work, input, operation) > 0.0 ==>
              (work <= OverallManHourEfficiency(work, input, operation) || input <= OverallManHourEfficiency(work, input, operation)
               || operation <= OverallManHourEfficiency(work, input, operation))
    ensures OverallManHourEfficiency(work, input, operation) * 3.0 == (if work > 0.0 && input > 0.0 && operation > 0.0 then work + input + operation else 0.0)
  {
  }

  /** Only the DIP line has flux figures; every other category reports 0 for all three. */
  lemma FluxOnlyForDip(day: E.DayOfWeek, daily: seq<E.DailyRow>, category: E.Category, onTime: real, operationTime: real)
    requires category != E.DIP
    ensures FluxOnTime(day, category) == 0.0
    ensures FluxOperationTime(daily, category) == 0.0
    ensures FluxOperationRate(onTime, operationTime, category) == Some(0.0)
  {
  }

  /** On the DIP line the scheduled time is 4 hours exactly on Friday, and the rate built on it is defined. */
  lemma FluxOnDip(day: E.DayOfWeek, daily: seq<E.DailyRow>)
    ensures FluxOnTime(day, E.DIP) == 4.0 <==> day == E.Friday
    ensures day != E.Friday ==> FluxOnTime(day, E.DIP) == 9.0
    ensures FluxOperationRate(FluxOnTime(day, E.DIP), FluxOperationTime(daily, E.DIP), E.DIP).Some?
  {
  }

  /** The rate as written divides by zero: available 0 with 2 overtime hours has no value. */
  lemma AdditionalInputRateAsWrittenDividesByZero()
    ensures AdditionalInputRateAsWritten(0.0, 2.0).None?
  {
  }

  /**
   * The corrected rate is always defined, is 0 without available man-hours, and agrees with the
   * code as written wherever that one is defined.
   */
  lemma AdditionalInputRateCorrected(available: real, overtime: real)
    ensures available == 0.0 ==> AdditionalInputRate(available, overtime) == 0.0
    ensures available != 0.0 ==> AdditionalInputRate(available, overtime) * available == overtime * 100.0
    ensures AdditionalInputRateAsWritten(available, overtime).Some? ==>
              AdditionalInputRateAsWritten(available, overtime).value == AdditionalInputRate(available, overtime)
    ensures AdditionalInputRateAsWritten(available, overtime).None? <==> (available == 0.0 && overtime != 0.0)
  {
  }

  /** The available and overtime figures are carried over from the previous report, 0 without one. */
  lemma CarriedFromPreviousReport(report: Option<E.ProcessReport>)
    ensures report.None? ==>
              AvailablePersonnel(report) == 0.0 && AvailableManHours(report) == 0.0
              && OvertimePersonnel(report) == 0.0 && OvertimeManHours(report) == 0.0
    ensures report.Some? && E.AvailablePersonnel in report.value.values ==> AvailablePersonnel(report) == report.value.values[E.AvailablePersonnel]
    ensures report.Some? && E.AvailableManHours in report.value.values ==> AvailableManHours(report) == report.value.values[E.AvailableManHours]
    ensures report.Some? && E.OvertimePersonnel in report.value.values ==> OvertimePersonnel(report) == report.value.values[E.OvertimePersonnel]
    ensures report.Some? && E.OvertimeManHours in report.value.values ==> OvertimeManHours(report) == report.value.values[E.OvertimeManHours]
  {
  }
}
