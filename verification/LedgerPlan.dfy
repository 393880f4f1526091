/** The staged mutation object of src/ledger.cpp, updated in place. Each mutator is proved to do what the
    function `Ledger.Run` says of the corresponding move, so `Ledger.StageRefinesBuckets` applies to it. */
module LedgerPlans {
  import opened Types
  import opened Ledger

  class LedgerPlan {
    var capacity: u64
    var totals: CreditTotals
    var status: Status

    function State(): Plan
      reads this
    {
      Plan(capacity, totals, status)
    }

    constructor (capacity: u64, current: CreditTotals)
      ensures State() == NewPlan(capacity, current)
    {
      this.capacity := capacity;
      this.totals := current;
      this.status := CheckInvariants(capacity, current);
    }

    /** The view of a closed account is its bucket partition; anything else is shown as not closed. */
    method View() returns (v: CreditView)
      ensures v == State().View()
      ensures v.closed <==> Closed(capacity, totals)
      ensures v.closed ==>
                var b := BucketsOf(capacity, totals);
                v.available == b.available && v.outstanding == b.outstanding && v.capacity == capacity
    {
      v := ComputeView(capacity, totals);
    }

    method Commit(candidate: CreditTotals) returns (ok: bool)
      modifies this
      ensures State() == if old(status).Ok() then old(State()).Commit(candidate) else old(State())
      ensures ok <==> status.Ok()
    {
      if !status.Ok() { return false; }
      var verdict := CheckInvariants(capacity, candidate);
      if !verdict.Ok() {
        status := verdict;
        return false;
      }
      totals := candidate;
      ok := true;
    }

    method Issue(count: u64, minIssue: u64, maxIssue: u64) returns (ok: bool)
      modifies this
      ensures State() == Run(old(State()), Issued(count, minIssue, maxIssue))
      ensures ok <==> status.Ok()
    {
      if !status.Ok() { return false; }
      if count == 0 { status := Status(COUNT_ZERO, 0); return false; }
      if count < minIssue || count > maxIssue { status := Status(POLICY_REFUSED, count); return false; }
      var current := View();
      if current.available < count { status := Status(INSUFFICIENT_AVAILABLE, current.available); return false; }
      var issued := AddOverflow(totals.issued, count);
      if issued.1 { status := Overflowed(issued.0); return false; }
      ok := Commit(totals.(issued := issued.0));
    }

    method Consume(count: u64) returns (ok: bool)
      modifies this
      ensures State() == Run(old(State()), Consumed(count))
      ensures ok <==> status.Ok()
    {
      if !status.Ok() { return false; }
      if count == 0 { status := Status(COUNT_ZERO, 0); return false; }
      var current := View();
      if current.outstanding < count { status := Status(INSUFFICIENT_OUTSTANDING, current.outstanding); return false; }
      var candidate := totals;
      var spent := AddOverflow(candidate.spent, count);
      if spent.1 { assert false; }  // dead: the guard above bounds the sum
      candidate := candidate.(spent := spent.0);
      var consumed := AddOverflow(candidate.consumed, count);
      if consumed.1 { status := Overflowed(consumed.0); return false; }
      candidate := candidate.(consumed := consumed.0);
      ok := Commit(candidate);
    }

    method GiveBack(count: u64) returns (ok: bool)
      modifies this
      ensures State() == Run(old(State()), GivenBack(count))
      ensures ok <==> status.Ok()
    {
      if !status.Ok() { return false; }
      if count == 0 { status := Status(COUNT_ZERO, 0); return false; }
      var current := View();
      var returnable := WrapSub(current.inFlight, current.stale);
      if current.inFlight < count || returnable < count {
        status := Status(INSUFFICIENT_OUTSTANDING, returnable);
        return false;
      }
      var candidate := totals;
      var fromSpent := if candidate.spent < count then candidate.spent else count;
      candidate := candidate.(spent := candidate.spent - fromSpent);
      var returned := AddOverflow(candidate.returned, count);
      if returned.1 { assert false; }  // dead: the guard above bounds the sum
      candidate := candidate.(returned := returned.0);
      ok := Commit(candidate);
    }

    method Protect(count: u64, allowed: bool) returns (ok: bool)
      modifies this
      ensures State() == Run(old(State()), Protected(count, allowed))
      ensures ok <==> status.Ok()
    {
      if !status.Ok() { return false; }
      if !allowed { status := Status(POLICY_REFUSED, 0); return false; }
      if count == 0 { status := Status(COUNT_ZERO, 0); return false; }
      var current := View();
      if current.available < count { status := Status(INSUFFICIENT_AVAILABLE, current.available); return false; }
      var held := AddOverflow(totals.protectedCredits, count);
      if held.1 { assert false; }  // dead: the guard above bounds the sum
      ok := Commit(totals.(protectedCredits := held.0));
    }

    method Unprotect(count: u64) returns (ok: bool)
      modifies this
      ensures State() == Run(old(State()), Unprotected(count))
      ensures ok <==> status.Ok()
    {
      if !status.Ok() { return false; }
      if count == 0 { status := Status(COUNT_ZERO, 0); return false; }
      if totals.protectedCredits < count {
        status := Status(INSUFFICIENT_PROTECTED, totals.protectedCredits);
        return false;
      }
      ok := Commit(totals.(protectedCredits := totals.protectedCredits - count));
    }

    method RetireStale(count: u64) returns (ok: bool)
      modifies this
      ensures State() == Run(old(State()), RetiredStale(count))
      ensures ok <==> status.Ok()
    {
      if !status.Ok() { return false; }
      if count == 0 { status := Status(COUNT_ZERO, 0); return false; }
      var current := View();
      if current.outstanding < count { status := Status(INSUFFICIENT_OUTSTANDING, current.outstanding); return false; }
      var stale := AddOverflow(totals.stale, count);
      if stale.1 { assert false; }  // dead: the guard above bounds the sum
      ok := Commit(totals.(stale := stale.0));
    }

    method QuarantineInFlight() returns (ok: bool)
      modifies this
      ensures State() == Run(old(State()), Quarantined)
      ensures ok <==> status.Ok()
    {
      if !status.Ok() { return false; }
      var current := View();
      var amount := WrapSub(current.inFlight, current.stale);
      if amount == 0 { return true; }
      var candidate := totals.(spent := 0);
      var stale := AddOverflow(candidate.stale, amount);
      if stale.1 { status := Overflowed(stale.0); return false; }
      candidate := candidate.(stale := stale.0);
      ok := Commit(candidate);
    }

    method RevalidateToReturned(count: u64) returns (ok: bool)
      modifies this
      ensures State() == Run(old(State()), RevalidatedReturned(count))
      ensures ok <==> status.Ok()
    {
      if !status.Ok() { return false; }
      if count == 0 { status := Status(COUNT_ZERO, 0); return false; }
      if totals.stale < count { status := Status(NOTHING_TO_RETIRE, totals.stale); return false; }
      var candidate := totals.(stale := totals.stale - count);
      var returned := AddOverflow(candidate.returned, count);
      if returned.1 { status := Overflowed(returned.0); return false; }
      candidate := candidate.(returned := returned.0);
      ok := Commit(candidate);
    }

    method RevalidateToConsumed(count: u64) returns (ok: bool)
      modifies this
      ensures State() == Run(old(State()), RevalidatedConsumed(count))
      ensures ok <==> status.Ok()
    {
      if !status.Ok() { return false; }
      if count == 0 { status := Status(COUNT_ZERO, 0); return false; }
      if totals.stale < count { status := Status(NOTHING_TO_RETIRE, totals.stale); return false; }
      var candidate := totals.(stale := totals.stale - count);
      var spent := AddOverflow(candidate.spent, count);
      if spent.1 { status := Overflowed(spent.0); return false; }
      candidate := candidate.(spent := spent.0);
      var consumed := AddOverflow(candidate.consumed, count);
      if consumed.1 { status := Overflowed(consumed.0); return false; }
      candidate := candidate.(consumed := consumed.0);
      ok := Commit(candidate);
    }

    method SetCapacity(newCapacity: u64, maxCapacity: u64, allowGrowth: bool) returns (ok: bool)
      modifies this
      ensures State() == Run(old(State()), Resized(newCapacity, maxCapacity, allowGrowth))
      ensures ok <==> status.Ok()
    {
      if !status.Ok() { return false; }
      if newCapacity == 0 { status := Status(CAPACITY_OUT_OF_RANGE, 0); return false; }
      if newCapacity > maxCapacity { status := Status(CAPACITY_EXCEEDED, maxCapacity); return false; }
      if newCapacity > capacity && !allowGrowth { status := Status(POLICY_REFUSED, capacity); return false; }
      var floor := State().ObligationFloor();
      if newCapacity < floor { status := Status(CAPACITY_SHRINK_VIOLATION, floor); return false; }
      capacity := newCapacity;
      ok := true;
    }
  }
}
