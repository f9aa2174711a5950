/**
 * The attendance section of the main production report: personnel counts and man-hours summed
 * over the day's worker-retention rows, the leave breakdown, and the differences and totals
 * built from them.
 */
module Attendance {
  import opened Wrappers
  import opened Sums
  import opened Rates
  import E = Entities

  function WorkerColumn(f: E.WorkerField): E.WorkerRetention -> Option<real>
  {
    (w: E.WorkerRetention) => E.Column(w.values, f)
  }

  /** The total of one attendance column, a null cell read as 0. */
  function WTotal(list: seq<E.WorkerRetention>, f: E.WorkerField): real
  {
    SumOptBy(list, WorkerColumn(f))
  }

  function ProductionPersonnel(list: seq<E.WorkerRetention>): int { IntValue(WTotal(list, E.ManagePerson)) }
  function DirectPersonnel(list: seq<E.WorkerRetention>): int { IntValue(WTotal(list, E.ProdPerson)) }
  function SupportPersonnel(list: seq<E.WorkerRetention>): int { IntValue(WTotal(list, E.AddWorkPerson)) }
  function EtcPersonnel(list: seq<E.WorkerRetention>): int { IntValue(WTotal(list, E.EtcPerson)) }

  /** The sum of the four counts, in 32-bit arithmetic. */
  function TotalPersonnel(production: int, direct: int, support: int, etc: int): int
    requires IntMin <= production <= IntMax && IntMin <= direct <= IntMax
    requires IntMin <= support <= IntMax && IntMin <= etc <= IntMax
  {
    AddInt32(AddInt32(AddInt32(production, direct), support), etc)
  }

  function IndirectTerm(w: E.WorkerRetention): real
  {
    Val(E.Column(w.values, E.ManagePerson)) * Val(E.Column(w.values, E.WorkTime))
  }

  /** Indirect man-hours: each row's managing personnel times its work time, summed. */
  function IndirectManHours(list: seq<E.WorkerRetention>): real { SumBy(list, IndirectTerm) }
  function DirectManHours(list: seq<E.WorkerRetention>): real { WTotal(list, E.RateTime) }
  function TotalManHours(indirect: real, direct: real): real { indirect + direct }

  function DirectYearlyLeavePersonnel(list: seq<E.WorkerRetention>): real { WTotal(list, E.WkPercntHoli) }
  function DirectYearlyLeaveHours(list: seq<E.WorkerRetention>): real { WTotal(list, E.WkPercntHoliTime) }
  function DirectPartTimePersonnel(list: seq<E.WorkerRetention>): real { WTotal(list, E.ProdPersonPartTime) }
  function DirectPartTimeHours(list: seq<E.WorkerRetention>): real { WTotal(list, E.ManagePersonPartTimeHour) }
  function DirectEtcPersonnel(list: seq<E.WorkerRetention>): real { WTotal(list, E.WkPercntEarly) }
  function DirectEtcPersonnelTime(list: seq<E.WorkerRetention>): real { WTotal(list, E.WkPercntEarlyTime) }
  function DirectTotalPersonnel(yearly: real, partTime: real, etc: real): real { yearly + partTime + etc }
  function DirectTotalPersonnelTime(yearly: real, partTime: real, etc: real): real { yearly + partTime + etc }

  function SubYearlyLeavePersonnel(list: seq<E.WorkerRetention>): real { WTotal(list, E.ManagePersonYearly) }
  function SubYearlyLeaveHours(list: seq<E.WorkerRetention>): real { WTotal(list, E.ManagePersonYearlyHour) }
  /** The indirect part-time count reads the same column as the direct one. */
  function SubPartTimePersonnel(list: seq<E.WorkerRetention>): real { WTotal(list, E.ProdPersonPartTime) }
  /** The indirect part-time hours read the same column as the direct ones. */
  function SubPartTimeHours(list: seq<E.WorkerRetention>): real { WTotal(list, E.ManagePersonPartTimeHour) }
  function SubTotalPersonnel(yearly: real, partTime: real): real { yearly + partTime }
  function SubTotalHours(yearly: real, partTime: real): real { yearly + partTime }

  function DirectMan(directPersonnel: real, directTotal: real): real { directPersonnel - directTotal }
  function DirectTime(directManHours: real, directTotalTime: real): real { directManHours - directTotalTime }
  function SubMan(productionPersonnel: real, subTotal: real): real { productionPersonnel - subTotal }
  function SubTime(indirectManHours: real, subTotalHours: real): real { indirectManHours - subTotalHours }
  function EtcMan(supportPersonnel: real, etcPersonnel: real): real { supportPersonnel + etcPersonnel }
  function EtcTime(list: seq<E.WorkerRetention>): real { WTotal(list, E.AddWorkTime) }
  function TotalMan(directMan: real, subMan: real, etcMan: real): real { directMan + subMan + etcMan }
  function TotalTime(directTime: real, subTime: real, etcTime: real): real { directTime + subTime + etcTime }

  // ---------------------------------------------------------------------------------------------
  // Properties

  lemma WTotalAppend(xs: seq<E.WorkerRetention>, ys: seq<E.WorkerRetention>, f: E.WorkerField)
    ensures WTotal(xs + ys, f) == WTotal(xs, f) + WTotal(ys, f)
  {
    SumOptByAppend(xs, ys, WorkerColumn(f));
  }

  lemma IndirectManHoursAppend(xs: seq<E.WorkerRetention>, ys: seq<E.WorkerRetention>)
    ensures IndirectManHours(xs + ys) == IndirectManHours(xs) + IndirectManHours(ys)
  {
    SumByAppend(xs, ys, IndirectTerm);
  }

  /** A personnel count is its column total with the fraction dropped, for totals in the `int` range. */
  lemma PersonnelCountsTruncate(list: seq<E.WorkerRetention>, f: E.WorkerField)
    requires 0.0 <= WTotal(list, f) <= IntMax as real
    ensures IntValue(WTotal(list, f)) as real <= WTotal(list, f) < IntValue(WTotal(list, f)) as real + 1.0
    ensures f == E.ManagePerson ==> ProductionPersonnel(list) == IntValue(WTotal(list, f))
  {
  }

  /** The total personnel is the plain sum of the four counts unless that sum leaves the `int` range. */
  lemma TotalPersonnelIsSum(list: seq<E.WorkerRetention>)
    requires IntMin <= ProductionPersonnel(list) + DirectPersonnel(list) <= IntMax
    requires IntMin <= ProductionPersonnel(list) + DirectPersonnel(list) + SupportPersonnel(list) <= IntMax
    requires IntMin <= ProductionPersonnel(list) + DirectPersonnel(list) + SupportPersonnel(list) + EtcPersonnel(list) <= IntMax
    ensures TotalPersonnel(ProductionPersonnel(list), DirectPersonnel(list), SupportPersonnel(list), EtcPersonnel(list))
            == ProductionPersonnel(list) + DirectPersonnel(list) + SupportPersonnel(list) + EtcPersonnel(list)
  {
  }

  /** Four counts at the top of the range wrap around to a negative total. */
  lemma TotalPersonnelWraps()
    ensures TotalPersonnel(IntMax, IntMax, IntMax, IntMax) == -4
  {
  }

  /** The direct and indirect part-time figures read the same columns, so they always agree. */
  lemma PartTimeFiguresCoincide(list: seq<E.WorkerRetention>)
    ensures DirectPartTimePersonnel(list) == SubPartTimePersonnel(list)
    ensures DirectPartTimeHours(list) == SubPartTimeHours(list)
  {
  }

  /**
   * The grand total of personnel is the three headcounts minus every leave figure: the direct
   * leaves come off the direct count and the indirect leaves off the production count.
   */
  lemma TotalManComposition(list: seq<E.WorkerRetention>)
    ensures TotalMan(
              DirectMan(DirectPersonnel(list) as real,
                        DirectTotalPersonnel(DirectYearlyLeavePersonnel(list), DirectPartTimePersonnel(list), DirectEtcPersonnel(list))),
              SubMan(ProductionPersonnel(list) as real, SubTotalPersonnel(SubYearlyLeavePersonnel(list), SubPartTimePersonnel(list))),
              EtcMan(SupportPersonnel(list) as real, EtcPersonnel(list) as real))
            == (DirectPersonnel(list) + ProductionPersonnel(list) + SupportPersonnel(list) + EtcPersonnel(list)) as real
               - DirectYearlyLeavePersonnel(list) - DirectEtcPersonnel(list) - SubYearlyLeavePersonnel(list)
               - 2.0 * WTotal(list, E.ProdPersonPartTime)
  {
  }

  /** The grand total of hours composes the same way from the man-hour figures. */
  lemma TotalTimeComposition(list: seq<E.WorkerRetention>)
    ensures TotalTime(
              DirectTime(DirectManHours(list),
                         DirectTotalPersonnelTime(DirectYearlyLeaveHours(list), DirectPartTimeHours(list), DirectEtcPersonnelTime(list))),
              SubTime(IndirectManHours(list), SubTotalHours(SubYearlyLeaveHours(list), SubPartTimeHours(list))),
              EtcTime(list))
            == DirectManHours(list) + IndirectManHours(list) + EtcTime(list)
               - DirectYearlyLeaveHours(list) - DirectEtcPersonnelTime(list) - SubYearlyLeaveHours(list)
               - 2.0 * WTotal(list, E.ManagePersonPartTimeHour)
  {
  }

  /** Total man-hours, indirect plus direct, add up over the worker rows of two lists. */
  lemma TotalManHoursAppend(xs: seq<E.WorkerRetention>, ys: seq<E.WorkerRetention>)
    ensures TotalManHours(IndirectManHours(xs + ys), DirectManHours(xs + ys))
            == TotalManHours(IndirectManHours(xs), DirectManHours(xs)) + TotalManHours(IndirectManHours(ys), DirectManHours(ys))
  {
    IndirectManHoursAppend(xs, ys);
    WTotalAppend(xs, ys, E.RateTime);
  }
}
