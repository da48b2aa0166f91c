/** The invoice status machine and the credit window (internal/domain/invoice.go). */
module Domain {

  datatype Status = Pending | Detected | Confirmed | Expired | Cancelled

  /** True when no further transition is possible. */
  predicate IsTerminal(s: Status) {
    s.Confirmed? || s.Expired? || s.Cancelled?
  }

  /** The transition table. */
  function Successors(s: Status): set<Status> {
    match s
    case Pending => {Detected, Confirmed, Expired, Cancelled}
    case Detected => {Confirmed, Pending}
    case Confirmed => {}
    case Expired => {}
    case Cancelled => {}
  }

  predicate CanTransitionTo(s: Status, next: Status) {
    next in Successors(s)
  }

  /** Transition answers nil for a repeated status as well as for a tabled move. */
  predicate Transition(s: Status, next: Status) {
    s == next || CanTransitionTo(s, next)
  }

  /** The half-open credit window [pay, pay + step). */
  predicate AmountMatches(pay: int, value: int, step: int) {
    step > 0 && pay <= value < pay + step
  }

  /** A status path: consecutive entries are equal or tabled moves. */
  ghost predicate Path(p: seq<Status>) {
    forall k :: 0 <= k < |p| - 1 ==> Transition(p[k], p[k + 1])
  }

  /** Along any path, a terminal status is final, and money seen on chain is never voided by the clock or by the
      merchant: after `Detected`, an expiry or cancellation is preceded by a return to `Pending`. */
  lemma {:induction false} TerminalIsFinal(p: seq<Status>, i: nat, j: nat)
    requires Path(p) && i <= j < |p|
    ensures IsTerminal(p[i]) ==> p[j] == p[i]
    ensures p[i] == Detected && (p[j] == Expired || p[j] == Cancelled)
            ==> exists k :: i < k < j && p[k] == Pending
  {
    if i < j {
      TerminalIsFinal(p, i, j - 1);
      assert Transition(p[j - 1], p[j - 1 + 1]);
    }
  }

  /** `IsTerminal` is exactly "the table offers no way out". */
  lemma TerminalIffNoSuccessor(s: Status)
    ensures IsTerminal(s) <==> forall next :: !CanTransitionTo(s, next)
  {
    if !IsTerminal(s) {
      assert CanTransitionTo(s, Confirmed);
    }
  }

  /** The windows of two pay amounts share a value exactly when the amounts are closer than `step`. */
  lemma WindowsMeetIffClose(p: int, q: int, step: int)
    requires step > 0
    ensures (exists value :: AmountMatches(p, value, step) && AmountMatches(q, value, step))
            <==> -step < p - q < step
  {
    if -step < p - q < step {
      var v := if p < q then q else p;
      assert AmountMatches(p, v, step) && AmountMatches(q, v, step);
    }
  }
}
