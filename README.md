# Budget ledger model

A Dafny model of the budget ledger in `budget_tracker.py`. The store holds budgets, their lines, expenditures and an append-only audit log. Its operations are:

- creating a budget, which starts in `draft`;
- moving a budget through `draft → approved → active → closed`;
- adding lines while the budget is `draft` or `approved`;
- the funds engine: `record_expenditure` and `commit_funds` each check a line's availability and then increment it;
- two read-only analyses over the lines of one budget: the variance report and the compliance check.

Layout, one module per file:

- `rounding.dfy` (`Rounding`): Python's `round(x, 2)` on exact values, rounding half to even.
- `types.dfy` (`BudgetTypes`): the records, the audit events and the errors.
  - `BudgetLine.Available` and `BudgetLine.UtilizationPct` live here.
  - The default expenditure date is derived here.
- `lifecycle.dfy` (`Lifecycle`): the status state machine, plus lemmas about runs of transitions.
- `variance.dfy` (`Variance`): `get_variance` as functions over a sequence of lines.
- `compliance.dfy` (`Compliance`): `compliance_check` as functions over a variance report.
- `ledger.dfy` (`Ledger`): the class `Store`.
  - Its fields are maps for budgets and lines, a sequence `lineIds` holding the line ids in insertion order, and sequences for expenditures and the audit log.
  - Its methods update them in place, and each method's contract states the complete new state.
  - `Valid()` is the store invariant every method keeps. It says that:
    - ids are fresh and consistent;
    - approval data is present exactly once a budget has left draft;
    - every line, and every expenditure, refers to an existing parent;
    - no line is left overdrawn by the engine.
- `scenarios.dfy` (`Scenarios`): clients that rebuild the repository's test scenarios on top of the store's methods.

Modelling choices:

- Amounts are `real`.
- A counter `nextId` supplies the fresh ids for budgets, lines and expenditures, and a second counter `nextLogId` those of audit entries, replacing `uuid4`.
- Each operation takes the current time as a parameter `now`.
- Failures are a `Result` datatype, replacing `ValueError`.
- Audit details are a structured `AuditEvent`, replacing formatted text. `Action` gives each event its fixed action tag, which each audit entry stores.
- A budget's lines are listed in the order they were inserted, as the line table holds its rows.

## Model

| member | source | states |
|---|---|---|
| Rounding.NearestEven | budget_tracker.py:60 | the integer is within 0.5 of `x`, and a tie goes to the even neighbour (Python's rounding of a half) |
| Rounding.Round2 | budget_tracker.py:60 | the result is within 0.005 of `x` and is a whole number of hundredths |
| Rounding.Round2Exact | budget_tracker.py:60 | a value that already has two decimals is left as it is |
| BudgetTypes.BudgetLine.AvailableWithinAllocation | budget_tracker.py:52-54 | available, spent and committed together make up the allocation, so a line has nothing negative available iff its spending and commitments stay within its allocation |
| BudgetTypes.BudgetLine.UtilizationPct | budget_tracker.py:56-60 | 0 when the allocation is exactly 0 (the guard is `== 0`); otherwise within 0.005 of spent/allocated·100 |
| BudgetTypes.Today | budget_tracker.py:250 | the default date is the first 10 characters of the timestamp (all of it when shorter) and is a prefix of it |
| Lifecycle.Step | budget_tracker.py:202-204 | a transition succeeds iff the status is exactly the one it requires; then the status moves one place up the lifecycle order, and the transition is the next one in that order |
| Lifecycle.RunFollowsOrder | budget_tracker.py:195-234 | any run of transitions that succeeds is a contiguous slice of approve, activate, close starting at the current status, and it advances the status by its length |
| Lifecycle.OrderIsAccepted | budget_tracker.py:195-234 | conversely, every such slice of the lifecycle order is accepted |
| Lifecycle.ClosedIsTerminal | budget_tracker.py:449-451 | a closed budget accepts no transition at all |
| Variance.TotalBounds | budget_tracker.py:305-307 | a column total of non-negative amounts is non-negative and at least each line's amount |
| Variance.TotalAppend | budget_tracker.py:305-307 | a column total over `ls + [l]` is the total over `ls` plus `l`'s amount |
| Variance.AvailableOfTotals | budget_tracker.py:308 | `total_available`, computed from the column totals, equals the sum of what each line has available |
| Variance.LinePct | budget_tracker.py:313 | the variance pct is 0 when the allocation is not positive; otherwise it is within 0.005 of spent/allocated·100 |
| Variance.PctAgreesWhenAllocationNonNegative | budget_tracker.py:57-60 | for a non-negative allocation, the variance pct equals `BudgetLine.utilization_pct` |
| Variance.PctDisagreesOnNegativeAllocation | budget_tracker.py:313 | on a line with allocation -100 and spent -100, the variance pct is 0 while `utilization_pct` is 100 (the guards differ) |
| Variance.TagOf | budget_tracker.py:323 | `over_budget` iff available < 0; `warning` iff available ≥ 0 and pct > 80; `ok` iff available ≥ 0 and pct ≤ 80 |
| Variance.LineVarianceOf | budget_tracker.py:311-324 | copies the line's figures and computes its available amount and pct; the tag is `over_budget` iff available < 0, `warning` iff available ≥ 0 and pct > 80, `ok` iff available ≥ 0 and pct ≤ 80 |
| Variance.WarningThreshold | budget_tracker.py:313-323 | because 80 is compared with the rounded pct, `warning` implies an exact ratio above 79.995%, and an exact ratio above 80.005% forces `warning` |
| Variance.OverallPct | budget_tracker.py:337 | 0 when the allocated total is not positive; otherwise within 0.005 of spent/allocated·100; always a whole number of hundredths; 0 when nothing is spent |
| Variance.ComputeVariance | budget_tracker.py:302-340 | the header (id, title, fiscal year, department, status, total budget) is the budget's; the column totals are the sums over the lines; `total_available` is the sum of per-line availability; the overall pct is `OverallPct` of the spent and allocated totals; `unallocated = total_amount - total_allocated`; one line report per line, in order |
| Compliance.IssuesInOrderStep | budget_tracker.py:352-354 | appending the next line's issue, when it is over-spent, keeps every issue at its place in line order |
| Compliance.WarningsInOrderStep | budget_tracker.py:355-356 | appending the next line's warning, when it is highly utilised, keeps every warning at its place in line order |
| Compliance.IssuesInOrderUnique | budget_tracker.py:352-354 | a list with one issue per over-spent line, each at its place in line order, is unique, even when two lines produce equal issues |
| Compliance.WarningsInOrderUnique | budget_tracker.py:355-356 | likewise for the high-utilisation warnings |
| Compliance.LineIssues | budget_tracker.py:352-354 | one over-spent issue per line with available < 0, and no other issue; each line's issue stands at the place given by the over-spent lines before it, which fixes the whole list |
| Compliance.LineWarnings | budget_tracker.py:352-356 | one high-utilisation warning per line with available ≥ 0 and pct > 90, and no other warning; each at its place in line order, which fixes the whole list |
| Compliance.NoOverSpentCount | budget_tracker.py:352-354 | the count of over-spent issues is 0 iff no line is over-spent |
| Compliance.Issues | budget_tracker.py:349-354 | no issue iff unallocated ≥ 0 and every line has available ≥ 0; an over-allocation issue iff unallocated < 0, and then it comes first; one over-spent issue per over-spent line, after it and in line order |
| Compliance.Warnings | budget_tracker.py:352-368 | high-utilisation warnings as above; a missing-receipt warning iff the count is positive; at most one such warning, carrying the count; so as many warnings as highly utilised lines, plus one when receipts are missing; the high-utilisation warnings come first, in line order, and the missing-receipt warning last |
| Compliance.CheckCompliance | budget_tracker.py:343-376 | `compliant` iff there is no issue, iff the budget is not over-allocated and no line is over-spent |
| Ledger.LinesOfSound | budget_tracker.py:299-302 | only lines of the budget that are in the table are listed |
| Ledger.LinesOfComplete | budget_tracker.py:299-302 | every line of the budget whose id is in the row order is listed |
| Ledger.LinesOfNone | budget_tracker.py:299-302 | a budget with no line in the table lists nothing |
| Ledger.LinesOfAgree | budget_tracker.py:299-302 | two tables that agree on the ids in the row order list the same lines |
| Ledger.LinesOfInsert | budget_tracker.py:181-184 | inserting a line under a new id placed last appends it to its own budget's list and to no other budget's list |
| Ledger.ReplaceKeepsIds | budget_tracker.py:261-264 | replacing a line keeps every id in its place, introduces no entry but the new line, and changes nothing when no entry has its id |
| Ledger.LinesOfUpdate | budget_tracker.py:261-264 | rewriting one line in place rewrites it in its budget's list and changes nothing else |
| Ledger.LinesOfOther | budget_tracker.py:261-264 | rewriting a line of another budget leaves a budget's list unchanged |
| Ledger.TotalAfterUpdate | budget_tracker.py:305-307 | rewriting one line changes its own budget's column total by the change in that line, and other budgets' totals not at all |
| Ledger.DrawEffect | budget_tracker.py:261-264 | after one line's spent and committed change by `ds` and `dc`, its budget's list has that line replaced, the budget's spent and committed totals change by exactly `ds` and `dc`, its allocated total stays, and other budgets' lists are unchanged |
| Ledger.DrawKeepsLinesWellFormed | budget_tracker.py:261-264 | drawing on a line that stays not overdrawn keeps the line table well formed |
| Ledger.InsertKeepsLinesWellFormed | budget_tracker.py:181-184 | a line of an existing budget inserted under the next fresh id keeps the line table well formed, and that id was not yet taken |
| Ledger.CountMissingReceipts | budget_tracker.py:358-364 | the count is positive iff some expenditure of the budget has a NULL receipt reference; it is at most the number of expenditures |
| Ledger.Store.constructor | budget_tracker.py:84-138 | an empty store that satisfies the invariant |
| Ledger.Store.FreshId | budget_tracker.py:49 | hands out the next id and advances the counter, keeping the invariant |
| Ledger.Store.Log | budget_tracker.py:141-148 | appends exactly one entry under a fresh id, by the system user, keeping the log's earlier entries |
| Ledger.Store.CreateBudget | budget_tracker.py:151-167 | adds one draft budget under a fresh id with the given fields and no approval data; it owns no lines; nothing else changes except one audit entry (a negative total is accepted) |
| Ledger.Store.AddBudgetLine | budget_tracker.py:170-192 | succeeds iff the budget exists and is draft or approved, else reports not-found or invalid-status and changes nothing; on success one new line (spent = committed = 0) is appended to that budget's list only, `updated_at` is set and one audit entry is added |
| Ledger.Store.ApproveBudget | budget_tracker.py:195-213 | succeeds iff the budget exists and is draft, else changes nothing; sets `approved`, approver, approval time and `updated_at`; one audit entry |
| Ledger.Store.ActivateBudget | budget_tracker.py:216-234 | succeeds iff the budget exists and is approved, else changes nothing; sets `active` and `updated_at`; one audit entry |
| Ledger.Store.CloseBudget | budget_tracker.py:442-460 | succeeds iff the budget exists and is active, else changes nothing; sets `closed` and `updated_at`; one audit entry |
| Ledger.Store.Draw | budget_tracker.py:261-268 | rewrites exactly that line with its spending and commitment grown; its budget's totals move by exactly that; other budgets' lists are unchanged; one audit entry for the line's budget |
| Ledger.Store.AppendExpenditure | budget_tracker.py:251-260 | appends one expenditure under an id no earlier expenditure has, with the given fields |
| Ledger.Store.RecordExpenditure | budget_tracker.py:237-268 | succeeds iff the line exists and amount ≤ available, else reports line-not-found or insufficient-funds and changes nothing; on success spent grows by exactly `amount`, available stays ≥ 0, the expenditure takes the line's category and the resolved date, only this line and its budget's spent total change, one audit entry for the line's budget |
| Ledger.Store.CommitFunds | budget_tracker.py:271-289 | the same guard and error paths; on success only `committed` of that line grows, by exactly `amount`; spent, allocation, other lines and expenditures are unchanged; one audit entry |
| Ledger.Store.GetVariance | budget_tracker.py:292-300 | fails iff the budget is missing; otherwise it is the variance over that budget's lines |
| Ledger.Store.ComplianceCheck | budget_tracker.py:343-376 | fails iff the budget is missing; otherwise it is the compliance of its variance and of its count of expenditures without a receipt |
| Ledger.Store.OverSpentOnlyFromNegativeAllocation | budget_tracker.py:246-249 | in the model, with exact amounts, an over-spent line in any store the operations build has a negative allocation: the engine never overdraws a line |
| Ledger.Store.CompliantUnlessOverAllocated | budget_tracker.py:349-354 | in the model, with exact amounts: when no line has a negative allocation, the budget is compliant iff its allocations do not exceed its total amount |
| Ledger.Store.MissingReceiptWarning | budget_tracker.py:358-368 | the missing-receipt warning appears iff some expenditure of the budget lacks a receipt reference |
| Scenarios.SingleLineVariance | budget_tracker.py:305-310 | a one-line budget's totals are that line's figures |
| Scenarios.OverBudgetScenario | tests/test_budget_tracker.py:73-77 | spending 15,000 on a 10,000 line is refused as insufficient funds, and nothing is spent |
| Scenarios.AllocationScenario | tests/test_budget_tracker.py:35-40 | after one 500,000 line on a 1,000,000 budget, 500,000 is unallocated and nothing is spent |
| Scenarios.SpendVarianceScenario | tests/test_budget_tracker.py:88-94 | after spending 50,000 of 300,000, the totals show it and the line is tagged `ok` |
| Scenarios.SpendComplianceScenario | budget_tracker.py:343-376 | that budget is compliant, and its only warning is one expenditure without a receipt |
| Scenarios.ClosedBudget | tests/test_budget_tracker.py:105-112 | approve, activate and close take a draft budget to `closed`, leaving its line list as it was (the model's budget carries one 50,000 line, which the test's does not) |
| Scenarios.AddLineAfterCloseScenario | budget_tracker.py:177-179 | a closed budget refuses a new line with an invalid-status error |
| Scenarios.SpendAfterCloseScenario | budget_tracker.py:237-249 | a closed budget's line still accepts spending, because the funds engine checks no status |

## Left out

- SQLite storage, schema creation and row mapping (budget_tracker.py:77-138) are replaced by in-memory maps and sequences.
- Each call runs as one atomic step. The source's per-call connections, and its separate transaction for the audit log, are not modelled.
- `uuid4` ids are replaced by fresh-id counters.
- Within one call the model may write the audit entry before the row it records. A call is one atomic step, so only its final state is observable.
- `datetime.utcnow()` is replaced by a `now` parameter. The source reads the clock several times within one call; the model uses one value.
- Floating point is modelled with exact reals. `round(..., 2)` is rounding half to even on the exact value, so binary representation error is not modelled.
- Ledger.Store.OverSpentOnlyFromNegativeAllocation: holds on exact amounts only. So do `NeverOverdrawn` in `Valid()` and the `Available() >= 0.0` clauses of `RecordExpenditure` and `CommitFunds`. With doubles, a check followed by an increment can leave a line one rounding error below zero. Example: on a 1.0 line, commit 0.1 and then spend 0.9; `get_variance` then reports the line `over_budget`, and `compliance_check` reports it over-spent.
- Ledger.Store.CompliantUnlessOverAllocated: holds on exact amounts only. With doubles, the over-spent line above makes a budget non-compliant although its allocations are within its total. A 0.3 budget with lines of 0.1 and 0.2 is also reported over-allocated, because 0.1 + 0.2 exceeds 0.3 in doubles (budget_tracker.py:305, 338, 349).
- Error texts, and the `:,.2f` formatting inside audit details, become structured `Error` and `AuditEvent` values. The free text of issues and warnings is also structured.
- The SQL `ORDER BY category, subcategory` of the variance lines (budget_tracker.py:300) is not modelled. Lines come in creation order, which changes only the order of report rows, issues and warnings.
- `executive_summary`, `cli`, `list_budgets`, `get_expenditures` and `budget_stats` (budget_tracker.py:379-439 and 463-521) are left out: text rendering, I/O, and SQL queries with no rule beyond the core's.
- The `checked_at` time of a compliance report is the `now` parameter, not a clock reading.
