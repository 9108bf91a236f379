/** The budget state machine: draft, approved, active, closed, one step at a
    time and never backwards. */
module Lifecycle {
  import opened BudgetTypes

  /** The three status-changing operations. */
  datatype Transition = Approve | Activate | Close

  /** Position of a status in the lifecycle order. */
  function Rank(s: BudgetStatus): nat {
    match s
    case Draft => 0
    case Approved => 1
    case Active => 2
    case Closed => 3
  }

  /** The status each transition demands, exactly. */
  function Required(t: Transition): BudgetStatus {
    match t
    case Approve => Draft
    case Activate => Approved
    case Close => Active
  }

  function Target(t: Transition): BudgetStatus {
    match t
    case Approve => Approved
    case Activate => Active
    case Close => Closed
  }

  /** The transitions in the order the lifecycle allows them. */
  const ORDER: seq<Transition> := [Approve, Activate, Close]

  /** One transition applied to a status; `None` when the status is not the required one. */
  function Step(s: BudgetStatus, t: Transition): (r: Option<BudgetStatus>)
    ensures r.Some? <==> s == Required(t)
    ensures r.Some? ==> Rank(r.value) == Rank(s) + 1
    ensures r.Some? ==> Rank(s) < 3 && ORDER[Rank(s)] == t
  {
    if s == Required(t) then Some(Target(t)) else None
  }

  /** Lines may be added while the budget is a draft or approved, and at no other time. */
  predicate CanAddLines(s: BudgetStatus) {
    s == Draft || s == Approved
  }

  /** A run of transitions; `None` as soon as one of them is refused. */
  function Run(s: BudgetStatus, ts: seq<Transition>): Option<BudgetStatus>
    decreases |ts|
  {
    if ts == [] then Some(s)
    else match Step(s, ts[0])
      case None => None
      case Some(s') => Run(s', ts[1..])
  }

  /** Every run that succeeds follows the lifecycle order from where it starts,
      without skipping a step, and advances the status by its length. */
  lemma {:induction false} RunFollowsOrder(s: BudgetStatus, ts: seq<Transition>)
    requires Run(s, ts).Some?
    ensures Rank(s) + |ts| <= 3
    ensures ts == ORDER[Rank(s)..Rank(s) + |ts|]
    ensures Rank(Run(s, ts).value) == Rank(s) + |ts|
    decreases |ts|
  {
    if ts != [] {
      var s' := Step(s, ts[0]).value;
      RunFollowsOrder(s', ts[1..]);
      assert ts == [ts[0]] + ts[1..];
    }
  }

  /** Conversely, the lifecycle order is accepted from any point of it. */
  lemma {:induction false} OrderIsAccepted(s: BudgetStatus, k: nat)
    requires Rank(s) + k <= 3
    ensures Run(s, ORDER[Rank(s)..Rank(s) + k]).Some?
    decreases k
  {
    if k > 0 {
      var ts := ORDER[Rank(s)..Rank(s) + k];
      var s' := Step(s, ts[0]).value;
      assert ts[1..] == ORDER[Rank(s')..Rank(s') + (k - 1)];
      OrderIsAccepted(s', k - 1);
    }
  }

  /** A closed budget accepts no transition at all. */
  lemma ClosedIsTerminal(ts: seq<Transition>)
    requires ts != []
    ensures Run(Closed, ts).None?
  {
    if Run(Closed, ts).Some? {
      RunFollowsOrder(Closed, ts);
    }
  }

  /** Between two versions of the budget table: nothing disappeared and no status went back. */
  ghost predicate StatusesAdvance(before: map<Id, Budget>, after: map<Id, Budget>) {
    forall id :: id in before ==> id in after && Rank(before[id].status) <= Rank(after[id].status)
  }
}
