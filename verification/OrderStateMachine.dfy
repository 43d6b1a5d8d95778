/** The order life cycle (execution/state_machine.py). */
module OrderLifeCycle {
  import opened Domain
  import opened ExecutionLedger

  class OrderStateMachine {
    var status: OrderStatus

    constructor (initial: OrderStatus)
      ensures status == initial
    {
      status := initial;
    }

    /** False is the source's ValueError; the status is then unchanged. */
    method Transition(next: OrderStatus) returns (ok: bool)
      modifies this
      ensures ok <==> next in Allowed(old(status))
      ensures status == if ok then next else old(status)
    {
      if next !in Allowed(status) {
        return false;
      }
      status := next;
      return true;
    }
  }

  function Rank(status: OrderStatus): nat {
    match status
    case CREATED => 0
    case VALIDATED => 1
    case SUBMITTING => 2
    case FILLED => 4
    case REJECTED => 4
    case CANCELLED => 4
    case _ => 3
  }

  /** Steps of the table, in order. */
  predicate Run(path: seq<OrderStatus>) {
    && |path| > 0
    && forall i :: 0 < i < |path| ==> path[i] in Allowed(path[i - 1])
  }

  /**
    Along every run an order never goes back: each of CREATED, VALIDATED and SUBMITTING is visited at
    most once, and a terminal status is final.
   */
  lemma {:induction false} RunsNeverGoBack(path: seq<OrderStatus>, i: nat, j: nat)
    requires Run(path) && i < j < |path|
    ensures Rank(path[i]) <= Rank(path[j])
    ensures Rank(path[i]) < 3 ==> path[i] != path[j]
    ensures !IsTerminal(path[i])
    decreases j - i
  {
    assert path[i + 1] in Allowed(path[i]);
    if i + 1 < j {
      RunsNeverGoBack(path, i + 1, j);
    }
  }

  /**
    The table: before submission the next step or a rejection; afterwards whatever a broker may report, but no status
    twice in a row except a partial fill, no return to ACKNOWLEDGED except from UNKNOWN, and no rejection of an order
    that is being cancelled; nothing after the end.
   */
  lemma TableIs(from: OrderStatus, to: OrderStatus)
    ensures to in Allowed(from) <==>
              if from == CREATED || from == VALIDATED then
                to == REJECTED || (Rank(to) == Rank(from) + 1 && !IsTerminal(to))
              else
                && !IsTerminal(from) && Rank(to) >= 3
                && (to == from ==> to == PARTIALLY_FILLED)
                && (to == ACKNOWLEDGED ==> from == SUBMITTING || from == UNKNOWN)
                && (to == REJECTED ==> from != CANCEL_PENDING)
  {
  }

  /** An order that has been submitted and is not over can still be filled, cancelled, or be found to be unknown. */
  lemma NeverStuck(from: OrderStatus)
    requires !IsTerminal(from) && Rank(from) >= 2
    ensures FILLED in Allowed(from) && CANCELLED in Allowed(from)
    ensures from == UNKNOWN || UNKNOWN in Allowed(from)
  {
  }
}
