/** The budget ledger store: budgets, their lines, expenditures and an
    append-only audit log, updated in place by the lifecycle operations and
    the funds engine. Every operation checks before it writes, so a failing
    call leaves the store exactly as it was. */
module Ledger {
  import opened BudgetTypes
  import opened Lifecycle
  import opened Variance
  import opened Compliance

  /** The lines of budget `b`, taking the line ids `ids` in their order. */
  function LinesOf(b: Id, ids: seq<Id>, lines: map<Id, BudgetLine>): seq<BudgetLine> {
    if ids == [] then []
    else
      var prev := LinesOf(b, ids[..|ids| - 1], lines);
      var id := ids[|ids| - 1];
      if id in lines && lines[id].budgetId == b then prev + [lines[id]] else prev
  }

  /** Only lines of budget `b` that are in the table are listed ... */
  lemma {:induction false} LinesOfSound(b: Id, ids: seq<Id>, lines: map<Id, BudgetLine>)
    ensures forall l :: l in LinesOf(b, ids, lines) ==> l.budgetId == b && l in lines.Values
  {
    if ids != [] {
      LinesOfSound(b, ids[..|ids| - 1], lines);
    }
  }

  /** ... and every line of budget `b` whose id is taken is. */
  lemma {:induction false} LinesOfComplete(b: Id, ids: seq<Id>, lines: map<Id, BudgetLine>)
    ensures forall id :: id in ids && id in lines && lines[id].budgetId == b ==> lines[id] in LinesOf(b, ids, lines)
  {
    if ids != [] {
      var prefix := ids[..|ids| - 1];
      LinesOfComplete(b, prefix, lines);
      assert ids == prefix + [ids[|ids| - 1]];
    }
  }

  /** A budget that owns no line in the table has an empty list. */
  lemma {:induction false} LinesOfNone(b: Id, ids: seq<Id>, lines: map<Id, BudgetLine>)
    requires forall id :: id in lines ==> lines[id].budgetId != b
    ensures LinesOf(b, ids, lines) == []
  {
    if ids != [] {
      LinesOfNone(b, ids[..|ids| - 1], lines);
    }
  }

  /** Two line tables that agree on the ids taken list the same lines. */
  lemma {:induction false} LinesOfAgree(b: Id, ids: seq<Id>, m1: map<Id, BudgetLine>, m2: map<Id, BudgetLine>)
    requires forall id :: id in ids ==> (id in m1 <==> id in m2)
    requires forall id :: id in ids && id in m1 ==> m1[id] == m2[id]
    ensures LinesOf(b, ids, m1) == LinesOf(b, ids, m2)
  {
    if ids != [] {
      var prefix := ids[..|ids| - 1];
      assert ids == prefix + [ids[|ids| - 1]];
      LinesOfAgree(b, prefix, m1, m2);
    }
  }

  /** A line inserted under a new id taken last comes last among its budget's
      lines, and no other budget's list changes. */
  lemma LinesOfInsert(b: Id, ids: seq<Id>, lines: map<Id, BudgetLine>, n: Id, l: BudgetLine)
    requires n !in ids
    ensures LinesOf(b, ids + [n], lines[n := l]) == LinesOf(b, ids, lines) + if l.budgetId == b then [l] else []
  {
    assert (ids + [n])[..|ids|] == ids;
    LinesOfAgree(b, ids, lines[n := l], lines);
  }

  /** `ls` with the line that has `l`'s id replaced by `l`. */
  function Replace(ls: seq<BudgetLine>, l: BudgetLine): (r: seq<BudgetLine>)
    ensures |r| == |ls|
    ensures forall i :: 0 <= i < |ls| ==> r[i] == if ls[i].lineId == l.lineId then l else ls[i]
  {
    seq(|ls|, i requires 0 <= i < |ls| => if ls[i].lineId == l.lineId then l else ls[i])
  }

  /** Replacing keeps the same ids in the same order, puts `l` wherever its id
      is, and changes nothing at all when no entry has that id. */
  lemma ReplaceKeepsIds(ls: seq<BudgetLine>, l: BudgetLine)
    ensures forall i :: 0 <= i < |ls| ==> Replace(ls, l)[i].lineId == ls[i].lineId
    ensures forall x :: x in Replace(ls, l) ==> x == l || x in ls
    ensures (forall x :: x in ls ==> x.lineId != l.lineId) ==> Replace(ls, l) == ls
  {
    if forall x :: x in ls ==> x.lineId != l.lineId {
      assert forall i :: 0 <= i < |ls| ==> ls[i] in ls;
    }
  }

  /** Rewriting one line in place, keeping its id and its budget, rewrites it
      in its budget's list and nowhere else. */
  lemma {:induction false} LinesOfUpdate(b: Id, ids: seq<Id>, lines: map<Id, BudgetLine>, l: BudgetLine)
    requires forall id :: id in lines ==> lines[id].lineId == id
    requires l.lineId in lines && lines[l.lineId].budgetId == l.budgetId
    ensures LinesOf(b, ids, lines[l.lineId := l]) == Replace(LinesOf(b, ids, lines), l)
  {
    if ids != [] {
      var prefix := ids[..|ids| - 1];
      var id := ids[|ids| - 1];
      LinesOfUpdate(b, prefix, lines, l);
      var prev := LinesOf(b, prefix, lines);
      if id in lines && lines[id].budgetId == b {
        assert Replace(prev + [lines[id]], l) == Replace(prev, l) + Replace([lines[id]], l);
      }
    }
  }

  /** Rewriting one line, when ids are not repeated, changes its own budget's
      column total by that line's change, and other budgets' totals not at all. */
  lemma {:induction false} TotalAfterUpdate(b: Id, ids: seq<Id>, lines: map<Id, BudgetLine>, id: Id, l: BudgetLine, c: Column)
    requires forall i, j :: 0 <= i < j < |ids| ==> ids[i] != ids[j]
    requires id in lines && lines[id].budgetId == l.budgetId
    ensures Total(LinesOf(b, ids, lines[id := l]), c)
         == Total(LinesOf(b, ids, lines), c) + if id in ids && l.budgetId == b then Amount(l, c) - Amount(lines[id], c) else 0.0
  {
    if ids != [] {
      var prefix, k := ids[..|ids| - 1], ids[|ids| - 1];
      var lines' := lines[id := l];
      assert ids == prefix + [k];
      assert k == id ==> id !in prefix;
      TotalAfterUpdate(b, prefix, lines, id, l, c);
      var prev, prev' := LinesOf(b, prefix, lines), LinesOf(b, prefix, lines');
      if k in lines && lines[k].budgetId == b {
        assert LinesOf(b, ids, lines) == prev + [lines[k]];
        assert LinesOf(b, ids, lines') == prev' + [lines'[k]];
        TotalAppend(prev, lines[k], c);
        TotalAppend(prev', lines'[k], c);
      } else {
        assert LinesOf(b, ids, lines) == prev;
        assert LinesOf(b, ids, lines') == prev';
      }
    }
  }

  /** A line of another budget rewritten in place leaves budget `b`'s list alone. */
  lemma {:induction false} LinesOfOther(b: Id, ids: seq<Id>, lines: map<Id, BudgetLine>, l: BudgetLine)
    requires l.lineId in lines && lines[l.lineId].budgetId == l.budgetId != b
    ensures LinesOf(b, ids, lines[l.lineId := l]) == LinesOf(b, ids, lines)
  {
    if ids != [] {
      LinesOfOther(b, ids[..|ids| - 1], lines, l);
    }
  }

  /** Drawing on one line, when ids are not repeated, is a `Drew` step for
      its own budget's list and leaves every other budget's list alone. */
  lemma DrawEffect(ids: seq<Id>, lines: map<Id, BudgetLine>, l: BudgetLine, ds: real, dc: real)
    requires forall i, j :: 0 <= i < j < |ids| ==> ids[i] < ids[j]
    requires forall id :: id in lines ==> lines[id].lineId == id
    requires l.lineId in ids && l.lineId in lines
    requires l == lines[l.lineId].(spent := lines[l.lineId].spent + ds, committed := lines[l.lineId].committed + dc)
    ensures Drew(LinesOf(l.budgetId, ids, lines), LinesOf(l.budgetId, ids, lines[l.lineId := l]), l, ds, dc)
    ensures forall b :: b != l.budgetId ==> LinesOf(b, ids, lines[l.lineId := l]) == LinesOf(b, ids, lines)
  {
    var b := l.budgetId;
    LinesOfUpdate(b, ids, lines, l);
    TotalAfterUpdate(b, ids, lines, l.lineId, l, Spent);
    TotalAfterUpdate(b, ids, lines, l.lineId, l, Committed);
    TotalAfterUpdate(b, ids, lines, l.lineId, l, Allocated);
    forall other | other != b ensures LinesOf(other, ids, lines[l.lineId := l]) == LinesOf(other, ids, lines) {
      LinesOfOther(other, ids, lines, l);
    }
  }

  /** The engine never leaves a line overdrawn: a line with less than nothing
      available is one that has never been drawn on. */
  predicate NeverOverdrawn(l: BudgetLine) {
    l.Available() >= 0.0 || (l.spent == 0.0 && l.committed == 0.0)
  }

  /** Approver and approval time are recorded exactly when the budget has left draft. */
  predicate ApprovalRecorded(b: Budget) {
    (b.status == Draft <==> b.approvedBy.None?) && (b.approvedBy.None? <==> b.approvedAt.None?)
  }

  /** An expenditure of budget `b` whose receipt reference is NULL. */
  predicate LacksReceipt(e: Expenditure, lines: map<Id, BudgetLine>, b: Id) {
    e.receiptRef.None? && e.lineId in lines && lines[e.lineId].budgetId == b
  }

  function CountMissingReceipts(exps: seq<Expenditure>, lines: map<Id, BudgetLine>, b: Id): (k: nat)
    ensures k <= |exps|
    ensures k > 0 <==> exists i :: 0 <= i < |exps| && LacksReceipt(exps[i], lines, b)
  {
    if exps == [] then 0
    else
      var init := exps[..|exps| - 1];
      assert forall i :: 0 <= i < |init| ==> init[i] == exps[i];
      CountMissingReceipts(init, lines, b) + if LacksReceipt(exps[|exps| - 1], lines, b) then 1 else 0
  }

  /** `after` is `before` with one more entry, by the system user, for `budgetId`. */
  predicate Logged(before: seq<AuditEntry>, after: seq<AuditEntry>, budgetId: Id, event: AuditEvent, now: Timestamp) {
    && |after| == |before| + 1
    && after[..|before|] == before
    && after[|before|].budgetId == budgetId
    && after[|before|].action == Action(event)
    && after[|before|].event == event
    && after[|before|].timestamp == now
    && after[|before|].userId == SYSTEM_USER
    && forall i :: 0 <= i < |before| ==> before[i].logId != after[|before|].logId
  }

  /** A budget's line list `after` is `before` with line `l` rewritten, which
      drew `ds` more spending and `dc` more commitment: the spent and committed
      totals move by exactly that, and the allocated total does not move. */
  ghost predicate Drew(before: seq<BudgetLine>, after: seq<BudgetLine>, l: BudgetLine, ds: real, dc: real) {
    && after == Replace(before, l)
    && Total(after, Spent) == Total(before, Spent) + ds
    && Total(after, Committed) == Total(before, Committed) + dc
    && Total(after, Allocated) == Total(before, Allocated)
  }

  /** Every budget is filed under its own id, below the next fresh id, and
      records its approval exactly when it has left draft. */
  predicate BudgetsWellFormed(budgets: map<Id, Budget>, nextId: nat) {
    forall id :: id in budgets ==> id < nextId && budgets[id].budgetId == id && ApprovalRecorded(budgets[id])
  }

  /** Every line is filed under its own id, below the next fresh id, belongs
      to a budget that exists and is never overdrawn; `lineIds` takes every
      line's id, in increasing order and below the next fresh id. */
  predicate LinesWellFormed(budgetIds: set<Id>, lines: map<Id, BudgetLine>, lineIds: seq<Id>, nextId: nat) {
    && (forall id :: id in lines ==>
          id < nextId && lines[id].lineId == id && lines[id].budgetId in budgetIds && NeverOverdrawn(lines[id]))
    && (forall id {:trigger id in lineIds} :: id in lines ==> id in lineIds)
    && (forall i :: 0 <= i < |lineIds| ==> lineIds[i] < nextId)
    && (forall i, j :: 0 <= i < j < |lineIds| ==> lineIds[i] < lineIds[j])
  }

  /** Every expenditure is against a line that exists and has an id below
      the next fresh id. */
  predicate ExpendituresWellFormed(lineKeys: set<Id>, expenditures: seq<Expenditure>, nextId: nat) {
    forall i :: 0 <= i < |expenditures| ==>
      expenditures[i].lineId in lineKeys && expenditures[i].expenditureId < nextId
  }

  /** Every audit entry has an id below the next fresh log id. */
  predicate AuditWellFormed(audit: seq<AuditEntry>, nextLogId: nat) {
    forall i :: 0 <= i < |audit| ==> audit[i].logId < nextLogId
  }

  /** Drawing on a line so that it is still not overdrawn keeps the line
      table well formed and its ids as they were. */
  lemma DrawKeepsLinesWellFormed(budgetIds: set<Id>, lines: map<Id, BudgetLine>, lineIds: seq<Id>, nextId: nat, l: BudgetLine)
    requires LinesWellFormed(budgetIds, lines, lineIds, nextId)
    requires l.lineId in lines && lines[l.lineId].budgetId == l.budgetId && NeverOverdrawn(l)
    ensures LinesWellFormed(budgetIds, lines[l.lineId := l], lineIds, nextId)
    ensures lines[l.lineId := l].Keys == lines.Keys
  { }

  /** A line of an existing budget, not overdrawn, inserted under the next
      fresh id and listed last keeps the line table well formed. */
  lemma InsertKeepsLinesWellFormed(budgetIds: set<Id>, lines: map<Id, BudgetLine>, lineIds: seq<Id>, nextId: nat, l: BudgetLine)
    requires LinesWellFormed(budgetIds, lines, lineIds, nextId)
    requires l.lineId == nextId && l.budgetId in budgetIds && NeverOverdrawn(l)
    ensures nextId !in lines && nextId !in lineIds
    ensures LinesWellFormed(budgetIds, lines[nextId := l], lineIds + [nextId], nextId + 1)
  {
    var lines', ids' := lines[nextId := l], lineIds + [nextId];
    forall id | id in lines' ensures id in ids' {
      if id != nextId {
        assert id in lineIds;
      }
    }
  }

  /** The error a lifecycle operation reports for a budget it cannot act on. */
  function StatusError(budgets: map<Id, Budget>, budgetId: Id): Error {
    if budgetId !in budgets then BudgetNotFound(budgetId) else InvalidStatus(budgets[budgetId].status)
  }

  class Store {
    var budgets: map<Id, Budget>
    var lines: map<Id, BudgetLine>
    /** The line ids in insertion order, the order in which the table holds its rows. */
    var lineIds: seq<Id>
    var expenditures: seq<Expenditure>
    var audit: seq<AuditEntry>
    /** Source of fresh ids for budgets, lines and expenditures. */
    var nextId: nat
    /** Source of fresh ids for audit entries. */
    var nextLogId: nat

    ghost predicate Valid()
      reads this
    {
      && BudgetsWellFormed(budgets, nextId)
      && LinesWellFormed(budgets.Keys, lines, lineIds, nextId)
      && ExpendituresWellFormed(lines.Keys, expenditures, nextId)
      && AuditWellFormed(audit, nextLogId)
    }

    /** The lines of a budget, in creation order. */
    function LinesOfBudget(b: Id): seq<BudgetLine>
      reads this`lines, this`lineIds
    {
      LinesOf(b, lineIds, lines)
    }

    constructor ()
      ensures Valid()
      ensures budgets == map[] && lines == map[] && expenditures == [] && audit == []
    {
      budgets, lines, lineIds, expenditures, audit := map[], map[], [], [], [];
      nextId, nextLogId := 0, 0;
    }

    /** Hands out an id no record has yet. */
    method FreshId() returns (id: Id)
      requires Valid()
      modifies this`nextId
      ensures Valid()
      ensures id == old(nextId) && nextId == id + 1
    {
      id := nextId;
      nextId := nextId + 1;
    }

    /** Appends one audit entry under a fresh log id. */
    method Log(budgetId: Id, event: AuditEvent, now: Timestamp)
      requires Valid()
      modifies this`audit, this`nextLogId
      ensures Valid()
      ensures Logged(old(audit), audit, budgetId, event, now)
    {
      audit := audit + [AuditEntry(nextLogId, budgetId, Action(event), event, now, SYSTEM_USER)];
      nextLogId := nextLogId + 1;
    }

    method CreateBudget(title: string, fiscalYear: int, totalAmount: real, department: string,
                        notes: string, now: Timestamp) returns (b: Budget)
      requires Valid()
      modifies this
      ensures Valid()
      ensures b.budgetId !in old(budgets)
      ensures b == Budget(b.budgetId, title, fiscalYear, totalAmount, department, Draft,
                          now, now, None, None, notes)
      ensures budgets == old(budgets)[b.budgetId := b]
      ensures lines == old(lines) && lineIds == old(lineIds) && expenditures == old(expenditures)
      ensures Logged(old(audit), audit, b.budgetId, BudgetCreated(department, fiscalYear), now)
      ensures StatusesAdvance(old(budgets), budgets)
      ensures LinesOfBudget(b.budgetId) == []
      ensures forall id :: LinesOfBudget(id) == old(LinesOfBudget(id))
    {
      var id := FreshId();
      b := Budget(id, title, fiscalYear, totalAmount, department, Draft, now, now, None, None, notes);
      budgets := budgets[id := b];
      Log(b.budgetId, BudgetCreated(department, fiscalYear), now);
      LinesOfNone(b.budgetId, lineIds, lines);
    }

    method AddBudgetLine(budgetId: Id, category: string, subcategory: string, allocation: real,
                         now: Timestamp) returns (r: Result<BudgetLine>)
      requires Valid()
      modifies this
      ensures Valid()
      ensures StatusesAdvance(old(budgets), budgets)
      ensures r.Success? <==> budgetId in old(budgets) && CanAddLines(old(budgets)[budgetId].status)
      ensures r.Failure? ==> r.error == StatusError(old(budgets), budgetId) && unchanged(this)
      ensures r.Success? ==>
        && r.value == BudgetLine(r.value.lineId, budgetId, category, subcategory, allocation, 0.0, 0.0, now)
        && r.value.lineId !in old(lines)
        && lines == old(lines)[r.value.lineId := r.value]
        && lineIds == old(lineIds) + [r.value.lineId]
        && budgets == old(budgets)[budgetId := old(budgets)[budgetId].(updatedAt := now)]
        && expenditures == old(expenditures)
        && Logged(old(audit), audit, budgetId, LineAdded(category, subcategory, allocation), now)
        && LinesOfBudget(budgetId) == old(LinesOfBudget(budgetId)) + [r.value]
        && forall id :: id != budgetId ==> LinesOfBudget(id) == old(LinesOfBudget(id))
    {
      if budgetId !in budgets {
        return Failure(BudgetNotFound(budgetId));
      }
      if !CanAddLines(budgets[budgetId].status) {
        return Failure(InvalidStatus(budgets[budgetId].status));
      }
      Log(budgetId, LineAdded(category, subcategory, allocation), now);
      ghost var budgetIds := budgets.Keys;
      var id := FreshId();
      var line := BudgetLine(id, budgetId, category, subcategory, allocation, 0.0, 0.0, now);
      InsertKeepsLinesWellFormed(budgetIds, lines, lineIds, id, line);
      forall b {
        LinesOfInsert(b, lineIds, lines, id, line);
      }
      lines := lines[id := line];
      lineIds := lineIds + [id];
      budgets := budgets[budgetId := budgets[budgetId].(updatedAt := now)];
      assert budgets.Keys == budgetIds;
      r := Success(line);
    }

    method ApproveBudget(budgetId: Id, approver: string, now: Timestamp) returns (r: Result<bool>)
      requires Valid()
      modifies this
      ensures Valid()
      ensures StatusesAdvance(old(budgets), budgets)
      ensures r.Success? <==> budgetId in old(budgets) && Step(old(budgets)[budgetId].status, Approve).Some?
      ensures r.Failure? ==> r.error == StatusError(old(budgets), budgetId) && unchanged(this)
      ensures r.Success? ==>
        && r.value
        && budgets == old(budgets)[budgetId := old(budgets)[budgetId].(
             status := Approved, approvedBy := Some(approver), approvedAt := Some(now), updatedAt := now)]
        && lines == old(lines) && lineIds == old(lineIds) && expenditures == old(expenditures)
        && Logged(old(audit), audit, budgetId, BudgetApproved(approver), now)
    {
      if budgetId !in budgets {
        return Failure(BudgetNotFound(budgetId));
      }
      if budgets[budgetId].status != Draft {
        return Failure(InvalidStatus(budgets[budgetId].status));
      }
      budgets := budgets[budgetId := budgets[budgetId].(
        status := Approved, approvedBy := Some(approver), approvedAt := Some(now), updatedAt := now)];
      Log(budgetId, BudgetApproved(approver), now);
      r := Success(true);
    }

    method ActivateBudget(budgetId: Id, now: Timestamp) returns (r: Result<bool>)
      requires Valid()
      modifies this
      ensures Valid()
      ensures StatusesAdvance(old(budgets), budgets)
      ensures r.Success? <==> budgetId in old(budgets) && Step(old(budgets)[budgetId].status, Activate).Some?
      ensures r.Failure? ==> r.error == StatusError(old(budgets), budgetId) && unchanged(this)
      ensures r.Success? ==>
        && r.value
        && budgets == old(budgets)[budgetId := old(budgets)[budgetId].(status := Active, updatedAt := now)]
        && lines == old(lines) && lineIds == old(lineIds) && expenditures == old(expenditures)
        && Logged(old(audit), audit, budgetId, BudgetActivated, now)
    {
      if budgetId !in budgets {
        return Failure(BudgetNotFound(budgetId));
      }
      if budgets[budgetId].status != Approved {
        return Failure(InvalidStatus(budgets[budgetId].status));
      }
      budgets := budgets[budgetId := budgets[budgetId].(status := Active, updatedAt := now)];
      Log(budgetId, BudgetActivated, now);
      r := Success(true);
    }

    method CloseBudget(budgetId: Id, now: Timestamp) returns (r: Result<bool>)
      requires Valid()
      modifies this
      ensures Valid()
      ensures StatusesAdvance(old(budgets), budgets)
      ensures r.Success? <==> budgetId in old(budgets) && Step(old(budgets)[budgetId].status, Close).Some?
      ensures r.Failure? ==> r.error == StatusError(old(budgets), budgetId) && unchanged(this)
      ensures r.Success? ==>
        && r.value
        && budgets == old(budgets)[budgetId := old(budgets)[budgetId].(status := Closed, updatedAt := now)]
        && lines == old(lines) && lineIds == old(lineIds) && expenditures == old(expenditures)
        && Logged(old(audit), audit, budgetId, BudgetClosed, now)
    {
      if budgetId !in budgets {
        return Failure(BudgetNotFound(budgetId));
      }
      if budgets[budgetId].status != Active {
        return Failure(InvalidStatus(budgets[budgetId].status));
      }
      budgets := budgets[budgetId := budgets[budgetId].(status := Closed, updatedAt := now)];
      Log(budgetId, BudgetClosed, now);
      r := Success(true);
    }

    /** Rewrites line `lineId` as `l`, which is that line with `ds` more
        spending and `dc` more commitment drawn on it, and records `event`
        against the line's budget in the audit log; the line must have that
        much available. */
    method Draw(lineId: Id, l: BudgetLine, ds: real, dc: real, event: AuditEvent, now: Timestamp)
      requires Valid() && lineId in lines && ds + dc <= lines[lineId].Available()
      requires l == lines[lineId].(spent := lines[lineId].spent + ds, committed := lines[lineId].committed + dc)
      modifies this`lines, this`audit, this`nextLogId
      ensures Valid()
      ensures lines == old(lines)[lineId := l]
      ensures Logged(old(audit), audit, l.budgetId, event, now)
      ensures Drew(old(LinesOfBudget(l.budgetId)), LinesOfBudget(l.budgetId), lines[lineId], ds, dc)
      ensures forall id :: id != l.budgetId ==> LinesOfBudget(id) == old(LinesOfBudget(id))
    {
      assert l.lineId == lineId;
      DrawEffect(lineIds, lines, l, ds, dc);
      DrawKeepsLinesWellFormed(budgets.Keys, lines, lineIds, nextId, l);
      lines := lines[lineId := l];
      Log(l.budgetId, event, now);
    }

    /** Appends an expenditure record, under a fresh id, against an existing line. */
    method AppendExpenditure(lineId: Id, vendor: string, amount: real, description: string,
                             approvedBy: string, date: string, now: Timestamp,
                             receiptRef: Option<string>, category: string) returns (exp: Expenditure)
      requires Valid() && lineId in lines
      modifies this`expenditures, this`nextId
      ensures Valid()
      ensures exp == Expenditure(exp.expenditureId, lineId, vendor, amount, description, approvedBy,
                                 date, now, receiptRef, category)
      ensures forall i :: 0 <= i < |old(expenditures)| ==> old(expenditures)[i].expenditureId != exp.expenditureId
      ensures expenditures == old(expenditures) + [exp]
      ensures nextId == old(nextId) + 1
    {
      var id := FreshId();
      exp := Expenditure(id, lineId, vendor, amount, description, approvedBy, date, now, receiptRef, category);
      expenditures := expenditures + [exp];
    }

    method RecordExpenditure(lineId: Id, vendor: string, amount: real, description: string,
                             approvedBy: string, date: Option<string>, receiptRef: Option<string>,
                             now: Timestamp) returns (r: Result<Expenditure>)
      requires Valid()
      modifies this
      ensures Valid()
      ensures r.Success? <==> lineId in old(lines) && amount <= old(lines)[lineId].Available()
      ensures r.Failure? ==> unchanged(this)
      ensures r.Failure? ==> r.error == if lineId !in old(lines) then LineNotFound(lineId)
                                        else InsufficientFunds(amount, old(lines)[lineId].Available())
      ensures r.Success? ==>
        var l := old(lines)[lineId];
        && lines == old(lines)[lineId := l.(spent := l.spent + amount)]
        && lines[lineId].Available() >= 0.0
        && r.value == Expenditure(r.value.expenditureId, lineId, vendor, amount, description, approvedBy,
                                  ExpenditureDate(date, now), now, receiptRef, l.category)
        && (forall i :: 0 <= i < |old(expenditures)| ==> old(expenditures)[i].expenditureId != r.value.expenditureId)
        && expenditures == old(expenditures) + [r.value]
        && budgets == old(budgets) && lineIds == old(lineIds)
        && Logged(old(audit), audit, l.budgetId, ExpenditureRecorded(vendor, amount, description), now)
        && Drew(old(LinesOfBudget(l.budgetId)), LinesOfBudget(l.budgetId), lines[lineId], amount, 0.0)
        && forall id :: id != l.budgetId ==> LinesOfBudget(id) == old(LinesOfBudget(id))
    {
      if lineId !in lines {
        return Failure(LineNotFound(lineId));
      }
      var line := lines[lineId];
      var available := line.Available();
      if amount > available {
        return Failure(InsufficientFunds(amount, available));
      }
      Draw(lineId, line.(spent := line.spent + amount), amount, 0.0, ExpenditureRecorded(vendor, amount, description), now);
      var exp := AppendExpenditure(lineId, vendor, amount, description, approvedBy,
                                   ExpenditureDate(date, now), now, receiptRef, line.category);
      r := Success(exp);
    }

    method CommitFunds(lineId: Id, amount: real, description: string, now: Timestamp) returns (r: Result<bool>)
      requires Valid()
      modifies this
      ensures Valid()
      ensures r.Success? <==> lineId in old(lines) && amount <= old(lines)[lineId].Available()
      ensures r.Failure? ==> unchanged(this)
      ensures r.Failure? ==> r.error == if lineId !in old(lines) then LineNotFound(lineId)
                                        else InsufficientFunds(amount, old(lines)[lineId].Available())
      ensures r.Success? ==>
        var l := old(lines)[lineId];
        && r.value
        && lines == old(lines)[lineId := l.(committed := l.committed + amount)]
        && lines[lineId].Available() >= 0.0
        && expenditures == old(expenditures)
        && budgets == old(budgets) && lineIds == old(lineIds)
        && Logged(old(audit), audit, l.budgetId, FundsCommitted(amount, description), now)
        && Drew(old(LinesOfBudget(l.budgetId)), LinesOfBudget(l.budgetId), lines[lineId], 0.0, amount)
        && forall id :: id != l.budgetId ==> LinesOfBudget(id) == old(LinesOfBudget(id))
    {
      if lineId !in lines {
        return Failure(LineNotFound(lineId));
      }
      var line := lines[lineId];
      var available := line.Available();
      if amount > available {
        return Failure(InsufficientFunds(amount, available));
      }
      Draw(lineId, line.(committed := line.committed + amount), 0.0, amount, FundsCommitted(amount, description), now);
      r := Success(true);
    }

    /** Variance report of a budget, or `BudgetNotFound`. */
    function GetVariance(budgetId: Id): (r: Result<VarianceReport>)
      reads this
      ensures r.Failure? <==> budgetId !in budgets
      ensures r.Failure? ==> r.error == BudgetNotFound(budgetId)
      ensures r.Success? ==> r.value == ComputeVariance(budgets[budgetId], LinesOfBudget(budgetId))
    {
      if budgetId !in budgets then Failure(BudgetNotFound(budgetId))
      else Success(ComputeVariance(budgets[budgetId], LinesOfBudget(budgetId)))
    }

    /** How many expenditures of a budget have no receipt reference. */
    function MissingReceiptCount(budgetId: Id): nat
      reads this
    {
      CountMissingReceipts(expenditures, lines, budgetId)
    }

    /** Compliance report of a budget, or `BudgetNotFound`. */
    function ComplianceCheck(budgetId: Id, now: Timestamp): (r: Result<ComplianceReport>)
      reads this
      ensures r.Failure? <==> budgetId !in budgets
      ensures r.Failure? ==> r.error == BudgetNotFound(budgetId)
      ensures r.Success? ==> r.value == CheckCompliance(GetVariance(budgetId).value, MissingReceiptCount(budgetId), now)
    {
      match GetVariance(budgetId)
      case Failure(e) => Failure(e)
      case Success(v) => Success(CheckCompliance(v, MissingReceiptCount(budgetId), now))
    }

    /** In a store built by these operations, a line is over-spent only if it
        was given a negative allocation: the engine itself never overdraws. */
    lemma OverSpentOnlyFromNegativeAllocation(budgetId: Id)
      requires Valid()
      ensures forall l :: l in LinesOfBudget(budgetId) && l.Available() < 0.0 ==> l.allocation < 0.0
    {
      LinesOfSound(budgetId, lineIds, lines);
      forall l | l in LinesOfBudget(budgetId) && l.Available() < 0.0 ensures l.allocation < 0.0 {
        assert l in lines.Values;
        var id :| id in lines && lines[id] == l;
        assert NeverOverdrawn(lines[id]);
      }
    }

    /** So when no line of a budget has a negative allocation, the budget is
        compliant exactly when its lines do not exceed its total amount. */
    lemma CompliantUnlessOverAllocated(budgetId: Id, now: Timestamp)
      requires Valid() && budgetId in budgets
      requires forall l :: l in LinesOfBudget(budgetId) ==> l.allocation >= 0.0
      ensures ComplianceCheck(budgetId, now).Success?
      ensures ComplianceCheck(budgetId, now).value.compliant
          <==> Total(LinesOfBudget(budgetId), Allocated) <= budgets[budgetId].totalAmount
    {
      OverSpentOnlyFromNegativeAllocation(budgetId);
      var ls := LinesOfBudget(budgetId);
      var v := GetVariance(budgetId).value;
      forall i | 0 <= i < |v.lines| ensures v.lines[i].available >= 0.0 {
        assert ls[i] in ls;
      }
    }

    /** The missing-receipt warning is raised exactly when some expenditure of
        the budget has no receipt reference, and counts them. */
    lemma MissingReceiptWarning(budgetId: Id, now: Timestamp)
      requires budgetId in budgets
      ensures var w := ComplianceCheck(budgetId, now).value.warnings;
        (exists i :: 0 <= i < |expenditures| && LacksReceipt(expenditures[i], lines, budgetId))
        <==> MissingReceipts(MissingReceiptCount(budgetId)) in w
    {
    }
  }
}
