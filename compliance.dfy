/** Compliance check of one budget, built on its variance report: hard issues
    (over-allocation, over-spent lines) decide compliance; warnings (high
    utilisation, expenditures without a receipt) are advisory. */
module Compliance {
  import opened BudgetTypes
  import opened Variance

  datatype Issue =
    | OverAllocated(excess: real)
    | OverSpent(category: string, subcategory: string, excess: real)

  datatype ComplianceWarning =
    | HighUtilization(pct: real, category: string, subcategory: string)
    | MissingReceipts(count: nat)

  datatype ComplianceReport = ComplianceReport(
    budgetId: Id,
    compliant: bool,
    issues: seq<Issue>,
    warnings: seq<ComplianceWarning>,
    checkedAt: Timestamp)

  /** A line is over-spent when it has less than nothing available. */
  predicate IsOverSpent(lv: LineVariance) {
    lv.available < 0.0
  }

  /** Utilisation above 90% on a line that is not over-spent. */
  predicate IsHighlyUtilized(lv: LineVariance) {
    lv.available >= 0.0 && lv.utilizationPct > 90.0
  }

  function OverSpentIssue(lv: LineVariance): Issue {
    OverSpent(lv.category, lv.subcategory, -lv.available)
  }

  function HighUtilizationWarning(lv: LineVariance): ComplianceWarning {
    HighUtilization(lv.utilizationPct, lv.category, lv.subcategory)
  }

  /** How many of the lines are over-spent. */
  function CountOverSpent(lvs: seq<LineVariance>): nat {
    if lvs == [] then 0
    else CountOverSpent(lvs[..|lvs| - 1]) + if IsOverSpent(lvs[|lvs| - 1]) then 1 else 0
  }

  /** How many of the lines are highly utilised. */
  function CountHighlyUtilized(lvs: seq<LineVariance>): nat {
    if lvs == [] then 0
    else CountHighlyUtilized(lvs[..|lvs| - 1]) + if IsHighlyUtilized(lvs[|lvs| - 1]) then 1 else 0
  }

  /** Each over-spent line's issue stands in `r` at the position given by the
      number of over-spent lines before it: one issue per line, in line order. */
  ghost predicate IssuesInOrder(lvs: seq<LineVariance>, r: seq<Issue>) {
    forall i :: 0 <= i < |lvs| && IsOverSpent(lvs[i]) ==>
      CountOverSpent(lvs[..i]) < |r| && r[CountOverSpent(lvs[..i])] == OverSpentIssue(lvs[i])
  }

  /** Each highly utilised line's warning stands in `r` at the position given
      by the number of highly utilised lines before it. */
  ghost predicate WarningsInOrder(lvs: seq<LineVariance>, r: seq<ComplianceWarning>) {
    forall i :: 0 <= i < |lvs| && IsHighlyUtilized(lvs[i]) ==>
      CountHighlyUtilized(lvs[..i]) < |r| && r[CountHighlyUtilized(lvs[..i])] == HighUtilizationWarning(lvs[i])
  }

  /** Appending one line's issue, if it has one, keeps the issues in order. */
  lemma IssuesInOrderStep(lvs: seq<LineVariance>, prev: seq<Issue>)
    requires lvs != [] && |prev| == CountOverSpent(lvs[..|lvs| - 1])
    requires IssuesInOrder(lvs[..|lvs| - 1], prev)
    ensures IssuesInOrder(lvs, prev + if IsOverSpent(lvs[|lvs| - 1]) then [OverSpentIssue(lvs[|lvs| - 1])] else [])
  {
    var init := lvs[..|lvs| - 1];
    assert forall i :: 0 <= i < |init| ==> init[i] == lvs[i] && init[..i] == lvs[..i];
  }

  /** Appending one line's warning, if it has one, keeps the warnings in order. */
  lemma WarningsInOrderStep(lvs: seq<LineVariance>, prev: seq<ComplianceWarning>)
    requires lvs != [] && |prev| == CountHighlyUtilized(lvs[..|lvs| - 1])
    requires WarningsInOrder(lvs[..|lvs| - 1], prev)
    ensures WarningsInOrder(lvs, prev + if IsHighlyUtilized(lvs[|lvs| - 1]) then [HighUtilizationWarning(lvs[|lvs| - 1])] else [])
  {
    var init := lvs[..|lvs| - 1];
    assert forall i :: 0 <= i < |init| ==> init[i] == lvs[i] && init[..i] == lvs[..i];
  }

  /** Warnings appended after the per-line ones leave those in order. */
  lemma WarningsInOrderAppend(lvs: seq<LineVariance>, prev: seq<ComplianceWarning>, more: seq<ComplianceWarning>)
    requires WarningsInOrder(lvs, prev)
    ensures WarningsInOrder(lvs, prev + more)
  { }

  /** Every position below the number of over-spent lines belongs to one of them. */
  lemma {:induction false} OverSpentPositionFilled(lvs: seq<LineVariance>, k: nat)
    requires k < CountOverSpent(lvs)
    ensures exists i :: 0 <= i < |lvs| && IsOverSpent(lvs[i]) && CountOverSpent(lvs[..i]) == k
  {
    var init := lvs[..|lvs| - 1];
    if k < CountOverSpent(init) {
      OverSpentPositionFilled(init, k);
      var i :| 0 <= i < |init| && IsOverSpent(init[i]) && CountOverSpent(init[..i]) == k;
      assert init[..i] == lvs[..i];
    } else {
      assert IsOverSpent(lvs[|lvs| - 1]) && CountOverSpent(lvs[..|lvs| - 1]) == k;
    }
  }

  /** Every position below the number of highly utilised lines belongs to one of them. */
  lemma {:induction false} HighlyUtilizedPositionFilled(lvs: seq<LineVariance>, k: nat)
    requires k < CountHighlyUtilized(lvs)
    ensures exists i :: 0 <= i < |lvs| && IsHighlyUtilized(lvs[i]) && CountHighlyUtilized(lvs[..i]) == k
  {
    var init := lvs[..|lvs| - 1];
    if k < CountHighlyUtilized(init) {
      HighlyUtilizedPositionFilled(init, k);
      var i :| 0 <= i < |init| && IsHighlyUtilized(init[i]) && CountHighlyUtilized(init[..i]) == k;
      assert init[..i] == lvs[..i];
    } else {
      assert IsHighlyUtilized(lvs[|lvs| - 1]) && CountHighlyUtilized(lvs[..|lvs| - 1]) == k;
    }
  }

  /** One issue per over-spent line, in line order, leaves exactly one list:
      equal issues from different lines each keep their own place. */
  lemma IssuesInOrderUnique(lvs: seq<LineVariance>, r1: seq<Issue>, r2: seq<Issue>)
    requires |r1| == CountOverSpent(lvs) && IssuesInOrder(lvs, r1)
    requires |r2| == CountOverSpent(lvs) && IssuesInOrder(lvs, r2)
    ensures r1 == r2
  {
    forall k | 0 <= k < |r1| ensures r1[k] == r2[k] {
      OverSpentPositionFilled(lvs, k);
    }
  }

  /** One warning per highly utilised line, in line order, leaves exactly one list. */
  lemma WarningsInOrderUnique(lvs: seq<LineVariance>, r1: seq<ComplianceWarning>, r2: seq<ComplianceWarning>)
    requires |r1| == CountHighlyUtilized(lvs) && WarningsInOrder(lvs, r1)
    requires |r2| == CountHighlyUtilized(lvs) && WarningsInOrder(lvs, r2)
    ensures r1 == r2
  {
    forall k | 0 <= k < |r1| ensures r1[k] == r2[k] {
      HighlyUtilizedPositionFilled(lvs, k);
    }
  }

  /** The issues the per-line pass raises, in line order. */
  function LineIssues(lvs: seq<LineVariance>): (r: seq<Issue>)
    ensures |r| == CountOverSpent(lvs)
    ensures forall x :: x in r ==> exists i :: 0 <= i < |lvs| && IsOverSpent(lvs[i]) && x == OverSpentIssue(lvs[i])
    ensures forall i :: 0 <= i < |lvs| && IsOverSpent(lvs[i]) ==> OverSpentIssue(lvs[i]) in r
    ensures IssuesInOrder(lvs, r)
  {
    if lvs == [] then []
    else
      var init := lvs[..|lvs| - 1];
      var last := lvs[|lvs| - 1];
      var r := LineIssues(init) + if IsOverSpent(last) then [OverSpentIssue(last)] else [];
      assert forall i :: 0 <= i < |init| ==> init[i] == lvs[i];
      IssuesInOrderStep(lvs, LineIssues(init));
      r
  }

  /** The warnings the per-line pass raises, in line order: the second branch
      of the same if/elif as `LineIssues`. */
  function LineWarnings(lvs: seq<LineVariance>): (r: seq<ComplianceWarning>)
    ensures |r| == CountHighlyUtilized(lvs)
    ensures forall w :: w in r ==> exists i :: 0 <= i < |lvs| && IsHighlyUtilized(lvs[i]) && w == HighUtilizationWarning(lvs[i])
    ensures forall i :: 0 <= i < |lvs| && IsHighlyUtilized(lvs[i]) ==> HighUtilizationWarning(lvs[i]) in r
    ensures WarningsInOrder(lvs, r)
  {
    if lvs == [] then []
    else
      var init := lvs[..|lvs| - 1];
      var last := lvs[|lvs| - 1];
      var r := LineWarnings(init) + if IsOverSpent(last) then [] else if last.utilizationPct > 90.0 then [HighUtilizationWarning(last)] else [];
      assert forall i :: 0 <= i < |init| ==> init[i] == lvs[i];
      WarningsInOrderStep(lvs, LineWarnings(init));
      r
  }

  /** No over-spent issue is raised exactly when no line is over-spent. */
  lemma {:induction false} NoOverSpentCount(lvs: seq<LineVariance>)
    ensures CountOverSpent(lvs) == 0 <==> forall i :: 0 <= i < |lvs| ==> !IsOverSpent(lvs[i])
  {
    if lvs != [] {
      var init := lvs[..|lvs| - 1];
      NoOverSpentCount(init);
      assert forall i :: 0 <= i < |init| ==> init[i] == lvs[i];
    }
  }

  /** The hard issues: over-allocation first, then one per over-spent line. */
  function Issues(v: VarianceReport): (r: seq<Issue>)
    ensures r == [] <==> v.unallocated >= 0.0 && forall i :: 0 <= i < |v.lines| ==> v.lines[i].available >= 0.0
    ensures OverAllocated(-v.unallocated) in r <==> v.unallocated < 0.0
    ensures forall x :: x in r && x.OverAllocated? ==> v.unallocated < 0.0 && x == OverAllocated(-v.unallocated)
    ensures |r| == (if v.unallocated < 0.0 then 1 else 0) + CountOverSpent(v.lines)
    ensures forall x :: x in r && x.OverSpent? ==>
      exists i :: 0 <= i < |v.lines| && IsOverSpent(v.lines[i]) && x == OverSpentIssue(v.lines[i])
    ensures forall i :: 0 <= i < |v.lines| && IsOverSpent(v.lines[i]) ==> OverSpentIssue(v.lines[i]) in r
    ensures v.unallocated < 0.0 ==> r[0] == OverAllocated(-v.unallocated) && IssuesInOrder(v.lines, r[1..])
    ensures v.unallocated >= 0.0 ==> IssuesInOrder(v.lines, r)
  {
    var lineIssues := LineIssues(v.lines);
    NoOverSpentCount(v.lines);
    assert forall x :: x in lineIssues ==> x.OverSpent?;
    (if v.unallocated < 0.0 then [OverAllocated(-v.unallocated)] else []) + lineIssues
  }

  /** The advisory warnings: high utilisation per line, then at most one
      aggregate missing-receipt warning. */
  function Warnings(v: VarianceReport, missingReceipts: nat): (r: seq<ComplianceWarning>)
    ensures forall w :: w in r && w.HighUtilization? ==>
      exists i :: 0 <= i < |v.lines| && IsHighlyUtilized(v.lines[i]) && w == HighUtilizationWarning(v.lines[i])
    ensures forall i :: 0 <= i < |v.lines| && IsHighlyUtilized(v.lines[i]) ==> HighUtilizationWarning(v.lines[i]) in r
    ensures MissingReceipts(missingReceipts) in r <==> missingReceipts > 0
    ensures forall j, k :: 0 <= j < k < |r| ==> !(r[j].MissingReceipts? && r[k].MissingReceipts?)
    ensures forall w :: w in r && w.MissingReceipts? ==> w == MissingReceipts(missingReceipts)
    ensures |r| == CountHighlyUtilized(v.lines) + if missingReceipts > 0 then 1 else 0
    ensures WarningsInOrder(v.lines, r)
    ensures missingReceipts > 0 ==> r[|r| - 1] == MissingReceipts(missingReceipts)
  {
    var lineWarnings := LineWarnings(v.lines);
    var r := lineWarnings + if missingReceipts > 0 then [MissingReceipts(missingReceipts)] else [];
    assert forall w :: w in lineWarnings ==> w.HighUtilization?;
    assert forall j :: 0 <= j < |lineWarnings| ==> r[j] == lineWarnings[j] && r[j] in lineWarnings;
    WarningsInOrderAppend(v.lines, lineWarnings, r[|lineWarnings|..]);
    assert r == lineWarnings + r[|lineWarnings|..];
    r
  }

  /** The compliance report for variance `v`, given how many of the budget's
      expenditures have no receipt reference. */
  function CheckCompliance(v: VarianceReport, missingReceipts: nat, now: Timestamp): (r: ComplianceReport)
    ensures r.budgetId == v.budgetId && r.checkedAt == now
    ensures r.compliant <==> r.issues == []
    ensures r.compliant <==> v.unallocated >= 0.0 && forall i :: 0 <= i < |v.lines| ==> v.lines[i].available >= 0.0
    ensures r.issues == Issues(v) && r.warnings == Warnings(v, missingReceipts)
  {
    var issues := Issues(v);
    ComplianceReport(v.budgetId, |issues| == 0, issues, Warnings(v, missingReceipts), now)
  }
}
