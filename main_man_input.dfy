/**
 * The man-hour section of the main production report: each figure is the column total over the
 * day's process production reports, and the rates are guarded percentages of those totals.
 */
module MainManInput {
  import opened Wrappers
  import opened Sums
  import opened Rates
  import E = Entities
  import ProcessManInput

  /** The getter of one column. */
  function Column(f: E.ReportField): E.ProcessReport -> Option<real>
  {
    (r: E.ProcessReport) => E.Column(r.values, f)
  }

  /** The total of one column over the process reports, a null column read as 0. */
  function Total(reports: seq<E.ProcessReport>, f: E.ReportField): real
  {
    SumOptBy(reports, Column(f))
  }

  function AvailableManHours(reports: seq<E.ProcessReport>): real { Total(reports, E.AvailableManHours) }
  function StandardManHours(reports: seq<E.ProcessReport>): real { Total(reports, E.StandardManHours) }
  function NonProductiveManHours(reports: seq<E.ProcessReport>): real { Total(reports, E.NonProductiveManHours) }
  function LoadManHours(reports: seq<E.ProcessReport>): real { Total(reports, E.WorkloadManHours) }
  function StoppedManHours(reports: seq<E.ProcessReport>): real { Total(reports, E.StopManHours) }
  function ReworkManHours(reports: seq<E.ProcessReport>): real { Total(reports, E.ReworkManHours) }
  function ActualManHours(reports: seq<E.ProcessReport>): real { Total(reports, E.ActualManHours) }
  function WorkingManHours(reports: seq<E.ProcessReport>): real { Total(reports, E.WorkingManHours) }
  function SpecialSupportManHours(reports: seq<E.ProcessReport>): real { Total(reports, E.OvertimeManHours) }
  function FluxEquipmentRunningTime(reports: seq<E.ProcessReport>): real { Total(reports, E.FluxOperatingTime) }

  function WorkEfficiency(working: real, standard: real): real { GuardedPercent(standard, working) }
  function ActualEfficiency(working: real, actual: real): real { GuardedPercent(actual, working) }
  function LossRate(available: real, stopped: real, rework: real): real { GuardedPercent(stopped + rework, available) }
  function ManHourInputRate(available: real, load: real): real { GuardedPercent(load, available) }
  function ManHourOperationRate(load: real, working: real): real { GuardedPercent(working, load) }

  /** The overall efficiency: the plain mean of the three rates, with no guard. */
  function TotalEfficiency(work: real, input: real, operation: real): real
  {
    (work + input + operation) / 3.0
  }

  /** Special-support personnel: the overtime personnel total, cast to a Java `int`. */
  function SpecialSupportPersonnel(reports: seq<E.ProcessReport>): int
  {
    IntValue(Total(reports, E.OvertimePersonnel))
  }

  function AdditionalInputRate(available: real, specialSupport: real): real
  {
    GuardedPercent(specialSupport, available)
  }

  /** Flux running rate: the flux operating time over 4 scheduled hours on Friday and 9 otherwise. */
  function FluxEquipmentRunningRate(reports: seq<E.ProcessReport>, day: E.DayOfWeek): real
  {
    var time := Total(reports, E.FluxOperatingTime);
    if day == E.Friday then time / 4.0 * 100.0 else time / 9.0 * 100.0
  }

  // ---------------------------------------------------------------------------------------------
  // Properties

  /** A column total over two report lists is the sum of the two totals. */
  lemma TotalAppend(xs: seq<E.ProcessReport>, ys: seq<E.ProcessReport>, f: E.ReportField)
    ensures Total(xs + ys, f) == Total(xs, f) + Total(ys, f)
  {
    SumOptByAppend(xs, ys, Column(f));
  }

  /** A single report contributes its own value, or 0 for a null column. */
  lemma TotalSingle(r: E.ProcessReport, f: E.ReportField)
    ensures f in r.values ==> Total([r], f) == r.values[f]
    ensures f !in r.values ==> Total([r], f) == 0.0
  {
    assert [r][..0] == [];
    assert SumOptBy([r], Column(f)) == SumOptBy([r][..0], Column(f)) + Val(Column(f)([r][0]));
  }

  /** A column that is null in every report totals 0. */
  lemma {:induction false} TotalAllNull(reports: seq<E.ProcessReport>, f: E.ReportField)
    requires forall i :: 0 <= i < |reports| ==> f !in reports[i].values
    ensures Total(reports, f) == 0.0
  {
    SumOptByNone(reports, Column(f));
  }

  /** Each rate is 0 exactly when its denominator total is 0, and a percentage otherwise. */
  lemma RatesGuarded(available: real, load: real, working: real, standard: real, actual: real, stopped: real, rework: real)
    ensures working == 0.0 ==> WorkEfficiency(working, standard) == 0.0 && ActualEfficiency(working, actual) == 0.0
    ensures working != 0.0 ==> WorkEfficiency(working, standard) * working == standard * 100.0
    ensures available == 0.0 ==> LossRate(available, stopped, rework) == 0.0 && ManHourInputRate(available, load) == 0.0
    ensures available != 0.0 ==> ManHourInputRate(available, load) * available == load * 100.0
    ensures load == 0.0 ==> ManHourOperationRate(load, working) == 0.0
  {
  }

  /** Unlike the process report, the overall efficiency is a mean even when a rate is 0 or negative. */
  lemma TotalEfficiencyUnguarded(work: real, input: real, operation: real)
    ensures TotalEfficiency(work, input, operation) * 3.0 == work + input + operation
    ensures TotalEfficiency(0.0, input, operation) != 0.0 <==> input + operation != 0.0
  {
  }

  /** The personnel count drops the fraction of the overtime total (within the 32-bit range). */
  lemma SpecialSupportTruncates(reports: seq<E.ProcessReport>)
    requires 0.0 <= Total(reports, E.OvertimePersonnel) <= IntMax as real
    ensures SpecialSupportPersonnel(reports) as real <= Total(reports, E.OvertimePersonnel) < SpecialSupportPersonnel(reports) as real + 1.0
  {
  }

  /** The main report guards the additional input rate by its denominator, exactly as the corrected process formula does. */
  lemma AdditionalInputRateMatchesProcess(available: real, specialSupport: real)
    ensures AdditionalInputRate(available, specialSupport) == ProcessManInput.AdditionalInputRate(available, specialSupport)
    ensures available == 0.0 ==> AdditionalInputRate(available, specialSupport) == 0.0
  {
  }

  /** The flux running rate scales the operating time by 100/4 on Friday and 100/9 on other days. */
  lemma FluxRunningRateByDay(reports: seq<E.ProcessReport>, day: E.DayOfWeek)
    ensures day == E.Friday ==> FluxEquipmentRunningRate(reports, day) * 4.0 == FluxEquipmentRunningTime(reports) * 100.0
    ensures day != E.Friday ==> FluxEquipmentRunningRate(reports, day) * 9.0 == FluxEquipmentRunningTime(reports) * 100.0
  {
  }
}
