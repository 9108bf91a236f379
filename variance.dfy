/** Variance analysis of one budget: totals over its lines, what is left
    unallocated, and a utilisation tag per line. Reads the lines, changes nothing. */
module Variance {
  import opened Rounding
  import opened BudgetTypes

  /** The three accumulating columns of a budget line. */
  datatype Column = Allocated | Spent | Committed

  function Amount(l: BudgetLine, c: Column): real {
    match c
    case Allocated => l.allocation
    case Spent => l.spent
    case Committed => l.committed
  }

  /** The sum of one column over a sequence of lines. */
  function Total(ls: seq<BudgetLine>, c: Column): real {
    if ls == [] then 0.0 else Total(ls[..|ls| - 1], c) + Amount(ls[|ls| - 1], c)
  }

  /** When no line's amount in a column is negative, neither is the column
      total, and the total is at least each line's amount. */
  lemma {:induction false} TotalBounds(ls: seq<BudgetLine>, c: Column)
    requires forall i :: 0 <= i < |ls| ==> Amount(ls[i], c) >= 0.0
    ensures Total(ls, c) >= 0.0
    ensures forall i :: 0 <= i < |ls| ==> Amount(ls[i], c) <= Total(ls, c)
  {
    if ls != [] {
      var init := ls[..|ls| - 1];
      assert forall i :: 0 <= i < |init| ==> init[i] == ls[i];
      TotalBounds(init, c);
    }
  }

  /** The sum of what each line has available. */
  function TotalOfAvailable(ls: seq<BudgetLine>): real {
    if ls == [] then 0.0 else TotalOfAvailable(ls[..|ls| - 1]) + ls[|ls| - 1].Available()
  }

  lemma {:induction false} TotalAppend(ls: seq<BudgetLine>, l: BudgetLine, c: Column)
    ensures Total(ls + [l], c) == Total(ls, c) + Amount(l, c)
  {
    assert (ls + [l])[..|ls|] == ls;
  }

  /** Subtracting the column totals gives the same figure as adding up what
      each line has available. */
  lemma {:induction false} AvailableOfTotals(ls: seq<BudgetLine>)
    ensures Total(ls, Allocated) - Total(ls, Spent) - Total(ls, Committed) == TotalOfAvailable(ls)
  {
    if ls != [] {
      AvailableOfTotals(ls[..|ls| - 1]);
    }
  }

  /** The utilisation percentage of the variance report: zero unless the
      allocation is positive (the guard is `> 0`, unlike `UtilizationPct`'s `== 0`). */
  function LinePct(l: BudgetLine): (pct: real)
    ensures l.allocation <= 0.0 ==> pct == 0.0
    ensures l.allocation > 0.0 ==>
      l.spent / l.allocation * 100.0 - 0.005 <= pct <= l.spent / l.allocation * 100.0 + 0.005
  {
    if l.allocation > 0.0 then Round2(l.spent / l.allocation * 100.0) else 0.0
  }

  /** The two utilisation figures agree on every line whose allocation is not negative. */
  lemma PctAgreesWhenAllocationNonNegative(l: BudgetLine)
    requires l.allocation >= 0.0
    ensures LinePct(l) == l.UtilizationPct()
  {
  }

  /** ... and disagree on a negative allocation that has been fully drawn down. */
  lemma PctDisagreesOnNegativeAllocation()
    ensures var l := BudgetLine(0, 0, "", "", -100.0, -100.0, 0.0, "");
      l.Available() == 0.0 && LinePct(l) == 0.0 && l.UtilizationPct() == 100.0
  {
    var l := BudgetLine(0, 0, "", "", -100.0, -100.0, 0.0, "");
    assert l.spent / l.allocation * 100.0 == 10000 as real / 100.0;
    Round2Exact(10000);
  }

  datatype LineTag = Ok | Warning | OverBudget

  datatype LineVariance = LineVariance(
    lineId: Id,
    category: string,
    subcategory: string,
    allocation: real,
    spent: real,
    committed: real,
    available: real,
    utilizationPct: real,
    status: LineTag)

  /** The tag of a line: over budget below zero available, else a warning above 80%. */
  function TagOf(available: real, pct: real): (t: LineTag)
    ensures t == OverBudget <==> available < 0.0
    ensures t == Warning <==> available >= 0.0 && pct > 80.0
    ensures t == Ok <==> available >= 0.0 && pct <= 80.0
  {
    if available < 0.0 then OverBudget else if pct > 80.0 then Warning else Ok
  }

  function LineVarianceOf(l: BudgetLine): (v: LineVariance)
    ensures v.lineId == l.lineId && v.category == l.category && v.subcategory == l.subcategory
    ensures v.allocation == l.allocation && v.spent == l.spent && v.committed == l.committed
    ensures v.available == l.Available() && v.utilizationPct == LinePct(l)
    ensures v.status == OverBudget <==> l.Available() < 0.0
    ensures v.status == Warning <==> l.Available() >= 0.0 && LinePct(l) > 80.0
    ensures v.status == Ok <==> l.Available() >= 0.0 && LinePct(l) <= 80.0
  {
    var available := l.Available();
    var pct := LinePct(l);
    LineVariance(l.lineId, l.category, l.subcategory, l.allocation, l.spent, l.committed,
                 available, pct, TagOf(available, pct))
  }

  /** The 80% threshold is applied to the rounded figure: a line is tagged
      `Warning` only above 79.995% exact utilisation, and always above 80.005%. */
  lemma WarningThreshold(l: BudgetLine)
    requires l.Available() >= 0.0 && l.allocation > 0.0
    ensures LineVarianceOf(l).status == Warning ==> l.spent / l.allocation * 100.0 > 79.995
    ensures l.spent / l.allocation * 100.0 > 80.005 ==> LineVarianceOf(l).status == Warning
  {
  }

  datatype VarianceReport = VarianceReport(
    budgetId: Id,
    title: string,
    fiscalYear: int,
    department: string,
    status: BudgetStatus,
    totalBudget: real,
    totalAllocated: real,
    totalSpent: real,
    totalCommitted: real,
    totalAvailable: real,
    overallUtilizationPct: real,
    unallocated: real,
    lines: seq<LineVariance>)

  /** The budget-wide utilisation percentage, with the same `> 0` guard as `LinePct`. */
  function OverallPct(totalSpent: real, totalAllocated: real): (pct: real)
    ensures totalAllocated <= 0.0 ==> pct == 0.0
    ensures totalAllocated > 0.0 ==>
      totalSpent / totalAllocated * 100.0 - 0.005 <= pct <= totalSpent / totalAllocated * 100.0 + 0.005
    ensures (pct * 100.0).Floor as real == pct * 100.0
    ensures totalSpent == 0.0 ==> pct == 0.0
  {
    Round2Exact(0);
    if totalAllocated > 0.0 then Round2(totalSpent / totalAllocated * 100.0) else 0.0
  }

  /** The variance report of budget `b` whose lines are `ls`. */
  function ComputeVariance(b: Budget, ls: seq<BudgetLine>): (v: VarianceReport)
    ensures v.budgetId == b.budgetId && v.status == b.status && v.totalBudget == b.totalAmount
    ensures v.title == b.title && v.fiscalYear == b.fiscalYear && v.department == b.department
    ensures v.overallUtilizationPct == OverallPct(v.totalSpent, v.totalAllocated)
    ensures v.totalAvailable == TotalOfAvailable(ls)
    ensures v.unallocated == b.totalAmount - v.totalAllocated
    ensures v.totalAllocated == Total(ls, Allocated)
    ensures v.totalSpent == Total(ls, Spent) && v.totalCommitted == Total(ls, Committed)
    ensures |v.lines| == |ls|
    ensures forall i :: 0 <= i < |ls| ==> v.lines[i] == LineVarianceOf(ls[i])
  {
    var allotted := Total(ls, Allocated);
    var spent := Total(ls, Spent);
    var committed := Total(ls, Committed);
    AvailableOfTotals(ls);
    VarianceReport(
      b.budgetId, b.title, b.fiscalYear, b.department, b.status, b.totalAmount,
      allotted, spent, committed, allotted - spent - committed,
      OverallPct(spent, allotted),
      b.totalAmount - allotted,
      seq(|ls|, i requires 0 <= i < |ls| => LineVarianceOf(ls[i])))
  }
}
