/** The records of the budget ledger: budgets, their lines, expenditures and
    audit entries, together with the error kinds the operations report. */
module BudgetTypes {
  import opened Rounding

  /** Opaque identity; the store hands out fresh ones from a counter. */
  type Id = nat
  /** Opaque ISO-8601 timestamp, supplied by the caller. */
  type Timestamp = string

  datatype Option<T> = None | Some(value: T)

  datatype BudgetStatus = Draft | Approved | Active | Closed

  datatype Budget = Budget(
    budgetId: Id,
    title: string,
    fiscalYear: int,
    totalAmount: real,
    department: string,
    status: BudgetStatus,
    createdAt: Timestamp,
    updatedAt: Timestamp,
    approvedBy: Option<string>,
    approvedAt: Option<Timestamp>,
    notes: string)

  datatype BudgetLine = BudgetLine(
    lineId: Id,
    budgetId: Id,
    category: string,
    subcategory: string,
    allocation: real,
    spent: real,
    committed: real,
    createdAt: Timestamp)
  {
    /** What may still be spent or committed. */
    function Available(): real {
      allocation - spent - committed
    }

    /** Nothing is overdrawn exactly when spending and commitments together
        stay within the allocation, and the three parts make up the allocation. */
    lemma AvailableWithinAllocation()
      ensures Available() >= 0.0 <==> spent + committed <= allocation
      ensures Available() + spent + committed == allocation
    {
    }

    /** Spent as a percentage of allocation; the zero guard tests only `allocation == 0`. */
    function UtilizationPct(): (pct: real)
      ensures allocation == 0.0 ==> pct == 0.0
      ensures allocation != 0.0 ==>
        spent / allocation * 100.0 - 0.005 <= pct <= spent / allocation * 100.0 + 0.005
    {
      if allocation == 0.0 then 0.0 else Round2(spent / allocation * 100.0)
    }
  }

  datatype Expenditure = Expenditure(
    expenditureId: Id,
    lineId: Id,
    vendor: string,
    amount: real,
    description: string,
    approvedBy: string,
    date: string,
    createdAt: Timestamp,
    receiptRef: Option<string>,
    category: string)

  /** What an audit entry records; `budget_tracker.py` renders these as free text. */
  datatype AuditEvent =
    | BudgetCreated(department: string, fiscalYear: int)
    | LineAdded(category: string, subcategory: string, allocation: real)
    | BudgetApproved(approver: string)
    | BudgetActivated
    | ExpenditureRecorded(vendor: string, amount: real, description: string)
    | FundsCommitted(amount: real, description: string)
    | BudgetClosed

  /** The fixed action tag stored with each kind of event. */
  function Action(e: AuditEvent): string {
    match e
    case BudgetCreated(_, _) => "CREATE_BUDGET"
    case LineAdded(_, _, _) => "ADD_LINE"
    case BudgetApproved(_) => "APPROVE_BUDGET"
    case BudgetActivated => "ACTIVATE_BUDGET"
    case ExpenditureRecorded(_, _, _) => "RECORD_EXPENDITURE"
    case FundsCommitted(_, _) => "COMMIT_FUNDS"
    case BudgetClosed => "CLOSE_BUDGET"
  }

  const SYSTEM_USER: string := "system"

  datatype AuditEntry = AuditEntry(
    logId: Id,
    budgetId: Id,
    action: string,
    event: AuditEvent,
    timestamp: Timestamp,
    userId: string)

  datatype Error =
    | BudgetNotFound(budgetId: Id)
    | LineNotFound(lineId: Id)
    | InvalidStatus(status: BudgetStatus)
    | InsufficientFunds(requested: real, available: real)

  datatype Result<T> = Success(value: T) | Failure(error: Error)

  /** The calendar date of a timestamp: its first ten characters, or all of it
      when it is shorter (a slice never fails). */
  function Today(now: Timestamp): (d: string)
    ensures |d| == if |now| < 10 then |now| else 10
    ensures now == d + now[|d|..]
  {
    if |now| < 10 then now else now[..10]
  }

  /** The date stored with an expenditure: the given one unless it is absent
      or empty (Python's `date or ...` treats both as false), else today's. */
  function ExpenditureDate(date: Option<string>, now: Timestamp): (d: string)
    ensures date.Some? && date.value != "" ==> d == date.value
    ensures date.None? || date.value == "" ==> d == Today(now)
  {
    if date.Some? && date.value != "" then date.value else Today(now)
  }
}
