/** Clients of the store: the behaviours the repository's tests exercise,
    rebuilt on top of the store's methods. */
module Scenarios {
  import opened BudgetTypes
  import opened Variance
  import opened Compliance
  import opened Ledger

  const NOW: Timestamp := "2025-01-01T09:00:00"

  /** A spend larger than the line's allocation is refused and spends nothing. */
  method OverBudgetScenario() returns (r: Result<Expenditure>, spent: real)
    ensures r == Failure(InsufficientFunds(15000.0, 10000.0))
    ensures spent == 0.0
  {
    var s := new Store();
    var b := s.CreateBudget("FY2025 Budget", 2025, 1000000.0, "Finance", "", NOW);
    var line := s.AddBudgetLine(b.budgetId, "Legal", "Contracts", 10000.0, NOW);
    r := s.RecordExpenditure(line.value.lineId, "Law Firm", 15000.0, "Legal fees", "CFO", None, None, NOW);
    spent := s.lines[line.value.lineId].spent;
  }

  /** The variance figures of a budget whose only line is `l`. */
  lemma SingleLineVariance(b: Budget, l: BudgetLine)
    ensures var v := ComputeVariance(b, [l]);
      && v.totalAllocated == l.allocation && v.totalSpent == l.spent && v.totalCommitted == l.committed
      && v.unallocated == b.totalAmount - l.allocation
      && v.lines == [LineVarianceOf(l)]
  {
    assert [l] == [] + [l];
    TotalAppend([], l, Allocated);
    TotalAppend([], l, Spent);
    TotalAppend([], l, Committed);
  }

  /** A new budget with one line: half the total is left unallocated and
      nothing is used yet. */
  method AllocationScenario() returns (v: VarianceReport)
    ensures v.totalAllocated == 500000.0 && v.unallocated == 500000.0
    ensures v.totalSpent == 0.0 && v.overallUtilizationPct == 0.0
  {
    var s := new Store();
    var b := s.CreateBudget("FY2025 Budget", 2025, 1000000.0, "Finance", "", NOW);
    var line := s.AddBudgetLine(b.budgetId, "Personnel", "Salaries", 500000.0, NOW);
    v := s.GetVariance(b.budgetId).value;
    SingleLineVariance(s.budgets[b.budgetId], line.value);
    Rounding.Round2Exact(0);
  }

  /** A store holding one draft budget with one fresh line of `allocation`
      and no expenditure yet. */
  method FundedDraft(allocation: real) returns (s: Store, b: Id, lineId: Id)
    ensures fresh(s) && s.Valid() && b in s.budgets && s.budgets[b].status == Draft
    ensures s.budgets[b].totalAmount == 1000000.0
    ensures lineId in s.lines && s.lines[lineId].budgetId == b
    ensures s.lines[lineId].allocation == allocation && s.lines[lineId].spent == 0.0 && s.lines[lineId].committed == 0.0
    ensures s.LinesOfBudget(b) == [s.lines[lineId]] && s.expenditures == []
  {
    s := new Store();
    var budget := s.CreateBudget("FY2025 Budget", 2025, 1000000.0, "Finance", "", NOW);
    b := budget.budgetId;
    var line := s.AddBudgetLine(b, "Tech", "Cloud", allocation, NOW);
    lineId := line.value.lineId;
  }

  /** A store whose one budget has one line of 300,000 with 50,000 spent
      through a single expenditure that has no receipt. */
  method SpentBudget() returns (s: Store, b: Id, l: BudgetLine)
    ensures fresh(s) && s.Valid() && b in s.budgets && s.budgets[b].totalAmount == 1000000.0
    ensures s.LinesOfBudget(b) == [l]
    ensures l.allocation == 300000.0 && l.spent == 50000.0 && l.committed == 0.0
    ensures |s.expenditures| == 1 && LacksReceipt(s.expenditures[0], s.lines, b)
  {
    var lineId;
    s, b, lineId := FundedDraft(300000.0);
    var e := s.RecordExpenditure(lineId, "AWS", 50000.0, "Cloud hosting", "CTO", None, None, NOW);
    l := s.lines[lineId];
  }

  /** The expenditure shows in the variance, and the line stays `Ok` (16.67% used). */
  method SpendVarianceScenario() returns (v: VarianceReport)
    ensures v.totalAllocated == 300000.0 && v.totalSpent == 50000.0 && v.totalAvailable == 250000.0
    ensures |v.lines| == 1 && v.lines[0].status == Ok
  {
    var s, b, l := SpentBudget();
    v := s.GetVariance(b).value;
    SingleLineVariance(s.budgets[b], l);
  }

  /** The same budget is compliant, with exactly one warning: one expenditure lacks a receipt. */
  method SpendComplianceScenario() returns (c: ComplianceReport)
    ensures c.compliant && c.issues == [] && c.warnings == [MissingReceipts(1)]
  {
    var s, b, l := SpentBudget();
    var v := s.GetVariance(b).value;
    SingleLineVariance(s.budgets[b], l);
    assert s.MissingReceiptCount(b) == 1 by {
      assert s.expenditures[..0] == [];
    }
    assert LineWarnings(v.lines) == [] by {
      assert v.lines[..0] == [];
    }
    c := s.ComplianceCheck(b, NOW).value;
  }

  /** The same store once its budget is approved. */
  method ApprovedBudget() returns (s: Store, b: Id, lineId: Id)
    ensures fresh(s) && s.Valid() && b in s.budgets && s.budgets[b].status == Approved
    ensures lineId in s.lines && s.lines[lineId].Available() == 50000.0
    ensures s.LinesOfBudget(b) == [s.lines[lineId]]
  {
    s, b, lineId := FundedDraft(50000.0);
    var ok := s.ApproveBudget(b, "Director", NOW);
  }

  /** ... then activated and closed: the whole lifecycle, which leaves the
      budget's line list as it was. */
  method ClosedBudget() returns (s: Store, b: Id, lineId: Id)
    ensures fresh(s) && s.Valid() && b in s.budgets && s.budgets[b].status == Closed
    ensures lineId in s.lines && s.lines[lineId].Available() == 50000.0
    ensures s.LinesOfBudget(b) == [s.lines[lineId]]
  {
    s, b, lineId := ApprovedBudget();
    var ok := s.ActivateBudget(b, NOW);
    ok := s.CloseBudget(b, NOW);
  }

  /** Once closed, a budget takes no further line ... */
  method AddLineAfterCloseScenario() returns (add: Result<BudgetLine>)
    ensures add == Failure(InvalidStatus(Closed))
  {
    var s, b, lineId := ClosedBudget();
    add := s.AddBudgetLine(b, "Operations", "Fuel", 1000.0, NOW);
  }

  /** ... yet its lines still accept spending: the funds engine has no status gate. */
  method SpendAfterCloseScenario() returns (spend: Result<Expenditure>)
    ensures spend.Success?
  {
    var s, b, lineId := ClosedBudget();
    spend := s.RecordExpenditure(lineId, "Delta Airlines", 1200.0, "Conference travel",
                                 "Manager Jones", None, Some("R-1"), NOW);
  }
}
