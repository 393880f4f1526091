/** Checked arithmetic and the credit ledger (include/creditfabric/checked.hpp, src/ledger.cpp).

    `LedgerPlan` is the code's staged mutation over six 64-bit counters. `Run` is its specification as a
    function; `Buckets` is an independent reference model, a five-way partition of capacity, which every
    mutator is proved to refine. */
module Ledger {
  import opened Types

  // ---------------------------------------------------------------- checked arithmetic

  /** 64-bit addition reporting wrap-around: `r.0` is the wrapped sum. */
  function AddOverflow(a: u64, b: u64): (r: (u64, bool))
    ensures r.1 <==> a + b >= TWO64
    ensures !r.1 ==> r.0 == a + b
  {
    var out := if a + b < TWO64 then a + b else a + b - TWO64;
    (out, out < a)
  }

  /** Unsigned 64-bit subtraction, which wraps. */
  function WrapSub(a: u64, b: u64): (r: u64)
    ensures r + b == a || r + b == a + TWO64
  {
    if b <= a then a - b else a - b + TWO64
  }

  /** The refusal of an addition that wrapped; its detail is the wrapped value the code left behind. */
  function Overflowed(wrapped: u64): Status { Status(COUNT_OVERFLOW, wrapped) }

  function SubOverflow(a: u64, b: u64): (r: (u64, bool))
    ensures r.1 <==> a - b < 0
    ensures !r.1 ==> r.0 + b == a
  {
    if b > a then (0, true) else (a - b, false)
  }

  function SaturatingAdd(a: u64, b: u64): (r: u64)
    ensures r == a + b || (r == TWO64 - 1 && r < a + b)
  {
    if b > TWO64 - 1 - a then TWO64 - 1 else a + b
  }

  // ---------------------------------------------------------------- view and invariants

  function CheckInvariants(capacity: u64, t: CreditTotals): (r: Status)
    ensures r.Ok() <==> Closed(capacity, t)
  {
    if t.returned > t.issued then Status(INVALID_STATE, 4) else
    var inFlight: u64 := t.issued - t.returned;
    var reserved := AddOverflow(t.spent, t.stale);
    if reserved.1 then Status(COUNT_OVERFLOW, 3) else
    if reserved.0 > inFlight then Status(INVALID_STATE, 3) else
    var claimed := AddOverflow(t.protectedCredits, inFlight);
    if claimed.1 then Status(COUNT_OVERFLOW, 5) else
    if claimed.0 > capacity then Status(INVALID_STATE, 6) else
    SUCCESS
  }

  function BrokenView(capacity: u64, t: CreditTotals): CreditView {
    CreditView(capacity, t.issued, t.consumed, t.returned, t.stale, t.spent, t.protectedCredits, 0, 0, t.stale, 0,
               false)
  }

  /** The derived view; a counter set that does not reconcile is saturated and marked not closed. */
  function ComputeView(capacity: u64, t: CreditTotals): (v: CreditView)
    ensures v.closed <==> Closed(capacity, t)
    ensures !v.closed ==> v.available == 0 && v.outstanding == 0 && v.inFlight == 0
    ensures v.closed ==>
              && Buckets(v.available, v.protectedCredits, v.outstanding, v.spent, v.stale) == BucketsOf(capacity, t)
              && v.inFlight == v.outstanding + v.spent + v.stale
  {
    if t.returned > t.issued then BrokenView(capacity, t) else
    var inFlight: u64 := t.issued - t.returned;
    var reserved := AddOverflow(t.spent, t.stale);
    if reserved.1 || reserved.0 > inFlight then BrokenView(capacity, t) else
    var claimed := AddOverflow(t.protectedCredits, inFlight);
    if claimed.1 || claimed.0 > capacity then BrokenView(capacity, t) else
    CreditView(capacity, t.issued, t.consumed, t.returned, t.stale, t.spent, t.protectedCredits,
               inFlight, inFlight - reserved.0, t.stale, capacity - claimed.0, true)
  }

  // ---------------------------------------------------------------- the reference model

  /** Where each unit of capacity is. */
  datatype Buckets = Buckets(available: int, held: int, outstanding: int, spent: int, stale: int) {
    function Sum(): int { available + held + outstanding + spent + stale }
    predicate NonNegative() { available >= 0 && held >= 0 && outstanding >= 0 && spent >= 0 && stale >= 0 }
  }

  function BucketsOf(capacity: u64, t: CreditTotals): Buckets {
    Buckets(capacity - t.protectedCredits - (t.issued - t.returned), t.protectedCredits,
            t.issued - t.returned - t.spent - t.stale, t.spent, t.stale)
  }

  /** The counters describe a partition: no bucket is negative (their sum is `capacity` by definition). */
  predicate Closed(capacity: u64, t: CreditTotals) {
    BucketsOf(capacity, t).NonNegative()
  }

  datatype Move =
    | Issued(count: u64, min: u64, max: u64)
    | Consumed(count: u64)
    | GivenBack(count: u64)
    | Protected(count: u64, allowed: bool)
    | Unprotected(count: u64)
    | RetiredStale(count: u64)
    | Quarantined
    | RevalidatedReturned(count: u64)
    | RevalidatedConsumed(count: u64)
    | Resized(newCapacity: u64, maxCapacity: u64, allowGrowth: bool)

  /** Exactly when a move is accepted, read off the buckets. */
  predicate Guard(b: Buckets, t: CreditTotals, m: Move) {
    match m
    case Issued(n, min, max) => 0 < n && min <= n <= max && n <= b.available && t.issued + n < TWO64
    case Consumed(n) => 0 < n <= b.outstanding && t.consumed + n < TWO64
    case GivenBack(n) => 0 < n <= b.outstanding + b.spent
    case Protected(n, allowed) => allowed && 0 < n <= b.available
    case Unprotected(n) => 0 < n <= b.held
    case RetiredStale(n) => 0 < n <= b.outstanding
    case Quarantined => true
    case RevalidatedReturned(n) => 0 < n <= b.stale
    case RevalidatedConsumed(n) => 0 < n <= b.stale && t.consumed + n < TWO64
    case Resized(c, max, growth) =>
      0 < c <= max && (c > b.Sum() ==> growth) && c >= b.Sum() - b.available
  }

  /** What an accepted move does to the partition. Returned credit is taken from `spent` first. */
  function Moved(b: Buckets, m: Move): Buckets {
    match m
    case Issued(n, _, _) => b.(available := b.available - n, outstanding := b.outstanding + n)
    case Consumed(n) => b.(outstanding := b.outstanding - n, spent := b.spent + n)
    case GivenBack(n) =>
      var fromSpent := if b.spent < n then b.spent else n;
      b.(spent := b.spent - fromSpent, outstanding := b.outstanding - (n - fromSpent), available := b.available + n)
    case Protected(n, _) => b.(available := b.available - n, held := b.held + n)
    case Unprotected(n) => b.(available := b.available + n, held := b.held - n)
    case RetiredStale(n) => b.(outstanding := b.outstanding - n, stale := b.stale + n)
    case Quarantined => b.(outstanding := 0, spent := 0, stale := b.stale + b.outstanding + b.spent)
    case RevalidatedReturned(n) => b.(stale := b.stale - n, available := b.available + n)
    case RevalidatedConsumed(n) => b.(stale := b.stale - n, spent := b.spent + n)
    case Resized(c, _, _) => b.(available := b.available + (c - b.Sum()))
  }

  // ---------------------------------------------------------------- the plan as a function

  datatype Plan = Plan(capacity: u64, totals: CreditTotals, status: Status) {
    function View(): CreditView { ComputeView(capacity, totals) }
    /** The final re-check: publish the candidate, or refuse it. */
    function Commit(candidate: CreditTotals): Plan {
      var verdict := CheckInvariants(capacity, candidate);
      if verdict.Ok() then this.(totals := candidate) else this.(status := verdict)
    }
    function ObligationFloor(): u64 {
      SaturatingAdd(totals.protectedCredits, if totals.returned <=
          totals.issued then totals.issued - totals.returned else 0)
    }
  }

  function NewPlan(capacity: u64, totals: CreditTotals): Plan {
    Plan(capacity, totals, CheckInvariants(capacity, totals))
  }

  /** What a mutator's own guards decide, before the final re-check. */
  datatype Draft = Rejected(status: Status) | Candidate(totals: CreditTotals) | Kept | NewCapacity(capacity: u64)

  /** A mutator's guards, branch for branch, on a plan whose status is Ok. */
  function DraftOf(p: Plan, m: Move): Draft {
    var t := p.totals;
    match m
    case Issued(n, min, max) =>
      if n == 0 then Rejected(Status(COUNT_ZERO, 0))
      else if n < min || n > max then Rejected(Status(POLICY_REFUSED, n))
      else if p.View().available < n then Rejected(Status(INSUFFICIENT_AVAILABLE, p.View().available))
      else
        var issued := AddOverflow(t.issued, n);
        if issued.1 then Rejected(Overflowed(issued.0)) else Candidate(t.(issued := issued.0))
    case Consumed(n) =>
      if n == 0 then Rejected(Status(COUNT_ZERO, 0))
      else if p.View().outstanding < n then Rejected(Status(INSUFFICIENT_OUTSTANDING, p.View().outstanding))
      else
        var spent, consumed := AddOverflow(t.spent, n), AddOverflow(t.consumed, n);
        if spent.1 then Rejected(Overflowed(spent.0))
        else if consumed.1 then Rejected(Overflowed(consumed.0))
        else Candidate(t.(spent := spent.0, consumed := consumed.0))
    case GivenBack(n) =>
      if n == 0 then Rejected(Status(COUNT_ZERO, 0)) else
      var v := p.View();
      var returnable := WrapSub(v.inFlight, v.stale);
      if v.inFlight < n || returnable < n then Rejected(Status(INSUFFICIENT_OUTSTANDING, returnable)) else
      var fromSpent := if t.spent < n then t.spent else n;
      var returned := AddOverflow(t.returned, n);
      if returned.1 then Rejected(Overflowed(returned.0))
      else Candidate(t.(spent := t.spent - fromSpent, returned := returned.0))
    case Protected(n, allowed) =>
      if !allowed then Rejected(Status(POLICY_REFUSED, 0))
      else if n == 0 then Rejected(Status(COUNT_ZERO, 0))
      else if p.View().available < n then Rejected(Status(INSUFFICIENT_AVAILABLE, p.View().available))
      else
        var held := AddOverflow(t.protectedCredits, n);
        if held.1 then Rejected(Overflowed(held.0)) else Candidate(t.(protectedCredits := held.0))
    case Unprotected(n) =>
      if n == 0 then Rejected(Status(COUNT_ZERO, 0))
      else if t.protectedCredits < n then Rejected(Status(INSUFFICIENT_PROTECTED, t.protectedCredits))
      else Candidate(t.(protectedCredits := t.protectedCredits - n))
    case RetiredStale(n) =>
      if n == 0 then Rejected(Status(COUNT_ZERO, 0))
      else if p.View().outstanding < n then Rejected(Status(INSUFFICIENT_OUTSTANDING, p.View().outstanding))
      else
        var stale := AddOverflow(t.stale, n);
        if stale.1 then Rejected(Overflowed(stale.0)) else Candidate(t.(stale := stale.0))
    case Quarantined =>
      var v := p.View();
      var amount := WrapSub(v.inFlight, v.stale);
      if amount == 0 then Kept else
      var stale := AddOverflow(t.stale, amount);
      if stale.1 then Rejected(Overflowed(stale.0)) else Candidate(t.(spent := 0, stale := stale.0))
    case RevalidatedReturned(n) =>
      if n == 0 then Rejected(Status(COUNT_ZERO, 0))
      else if t.stale < n then Rejected(Status(NOTHING_TO_RETIRE, t.stale))
      else
        var returned := AddOverflow(t.returned, n);
        if returned.1 then Rejected(Overflowed(returned.0))
        else Candidate(t.(stale := t.stale - n, returned := returned.0))
    case RevalidatedConsumed(n) =>
      if n == 0 then Rejected(Status(COUNT_ZERO, 0))
      else if t.stale < n then Rejected(Status(NOTHING_TO_RETIRE, t.stale))
      else
        var spent, consumed := AddOverflow(t.spent, n), AddOverflow(t.consumed, n);
        if spent.1 then Rejected(Overflowed(spent.0))
        else if consumed.1 then Rejected(Overflowed(consumed.0))
        else Candidate(t.(stale := t.stale - n, spent := spent.0, consumed := consumed.0))
    case Resized(c, max, growth) =>
      if c == 0 then Rejected(Status(CAPACITY_OUT_OF_RANGE, 0))
      else if c > max then Rejected(Status(CAPACITY_EXCEEDED, max))
      else if c > p.capacity && !growth then Rejected(Status(POLICY_REFUSED, p.capacity))
      else if c < p.ObligationFloor() then Rejected(Status(CAPACITY_SHRINK_VIOLATION, p.ObligationFloor()))
      else NewCapacity(c)
  }

  /** One mutator call on a plan whose status is Ok: guards, then the re-check of the candidate. */
  function Stage(p: Plan, m: Move): Plan {
    match DraftOf(p, m)
    case Rejected(status) => p.(status := status)
    case Candidate(totals) => p.Commit(totals)
    case Kept => p
    case NewCapacity(capacity) => p.(capacity := capacity)
  }

  function Run(p: Plan, m: Move): Plan {
    if p.status.Ok() then Stage(p, m) else p
  }

  /** A fresh plan over an account's counters, and one move. */
  function Planned(capacity: u64, totals: CreditTotals, m: Move): Plan {
    Run(NewPlan(capacity, totals), m)
  }

  // ---------------------------------------------------------------- what is proved of it

  /** Accepted exactly on the guard, as the bucket move says, and a refusal changes nothing. */
  predicate Refines(capacity: u64, t: CreditTotals, m: Move) {
    var p, b := Planned(capacity, t, m), BucketsOf(capacity, t);
    && (p.status.Ok() <==> Guard(b, t, m))
    && (p.status.Ok() ==>
          && BucketsOf(p.capacity, p.totals) == Moved(b, m)
          && Moved(b, m).NonNegative()
          && Moved(b, m).Sum() == p.capacity == (if m.Resized? then m.newCapacity else capacity))
    && (!p.status.Ok() ==> p.capacity == capacity && p.totals == t)
    && RecheckPasses(capacity, t, m)
  }

  /** Once the guards have produced a candidate, the re-check in `commit` accepts it. */
  predicate RecheckPasses(capacity: u64, t: CreditTotals, m: Move) {
    var d := DraftOf(NewPlan(capacity, t), m);
    d.Candidate? ==> CheckInvariants(capacity, d.totals).Ok()
  }

  lemma ConsumeRefines(capacity: u64, t: CreditTotals, m: Move)
    requires Closed(capacity, t) && m.Consumed?
    ensures Refines(capacity, t, m)
  {}

  lemma GiveBackRefines(capacity: u64, t: CreditTotals, m: Move)
    requires Closed(capacity, t) && m.GivenBack?
    ensures Refines(capacity, t, m)
  {
    hide CheckInvariants;
  }

  lemma ProtectRefines(capacity: u64, t: CreditTotals, m: Move)
    requires Closed(capacity, t) && m.Protected?
    ensures Refines(capacity, t, m)
  {}

  lemma UnprotectRefines(capacity: u64, t: CreditTotals, m: Move)
    requires Closed(capacity, t) && m.Unprotected?
    ensures Refines(capacity, t, m)
  {}

  lemma RetireStaleRefines(capacity: u64, t: CreditTotals, m: Move)
    requires Closed(capacity, t) && m.RetiredStale?
    ensures Refines(capacity, t, m)
  {}

  lemma QuarantineRefines(capacity: u64, t: CreditTotals, m: Move)
    requires Closed(capacity, t) && m.Quarantined?
    ensures Refines(capacity, t, m)
  {}

  lemma ToReturnedRefines(capacity: u64, t: CreditTotals, m: Move)
    requires Closed(capacity, t) && m.RevalidatedReturned?
    ensures Refines(capacity, t, m)
  {}

  lemma ToConsumedRefines(capacity: u64, t: CreditTotals, m: Move)
    requires Closed(capacity, t) && m.RevalidatedConsumed?
    ensures Refines(capacity, t, m)
  {}

  /** Every mutator refines its bucket move: accepted exactly on its guard, wraps nowhere, keeps the
      partition closed, and a refusal leaves capacity and counters alone. */
  lemma StageRefinesBuckets(capacity: u64, t: CreditTotals, m: Move)
    requires Closed(capacity, t)
    ensures BucketsOf(capacity, t).Sum() == capacity
    ensures Refines(capacity, t, m)
  {
    match m
    case Issued(_, _, _) =>
    case Consumed(_) => ConsumeRefines(capacity, t, m);
    case GivenBack(_) => GiveBackRefines(capacity, t, m);
    case Protected(_, _) => ProtectRefines(capacity, t, m);
    case Unprotected(_) => UnprotectRefines(capacity, t, m);
    case RetiredStale(_) => RetireStaleRefines(capacity, t, m);
    case Quarantined => QuarantineRefines(capacity, t, m);
    case RevalidatedReturned(_) => ToReturnedRefines(capacity, t, m);
    case RevalidatedConsumed(_) => ToConsumedRefines(capacity, t, m);
    case Resized(_, _, _) =>
  }

  /** How much a move adds to the accepted Issue and Consume totals. */
  function IssuedBy(m: Move): nat { if m.Issued? then m.count else 0 }
  function ConsumedBy(m: Move): nat { if m.Consumed? then m.count else 0 }

  /** How much a revalidation adds to the consumed counter without spending anything. */
  function SettledBy(m: Move): nat { if m.RevalidatedConsumed? then m.count else 0 }

  function Outstanding(capacity: u64, t: CreditTotals): int { BucketsOf(capacity, t).outstanding }

  /** A history of accepted moves: each one is `Planned` from the counters the previous one left. */
  ghost predicate Accepted(capacity: u64, t: CreditTotals, moves: seq<Move>)
    decreases |moves|
  {
    moves == [] ||
    var p := Planned(capacity, t, moves[0]);
    p.status.Ok() && Accepted(p.capacity, p.totals, moves[1..])
  }

  ghost function After(capacity: u64, t: CreditTotals, moves: seq<Move>): Plan
    decreases |moves|
  {
    if moves == [] then NewPlan(capacity, t) else
    var p := Planned(capacity, t, moves[0]);
    After(p.capacity, p.totals, moves[1..])
  }

  ghost function IssueTotal(moves: seq<Move>): nat {
    if moves == [] then 0 else IssuedBy(moves[0]) + IssueTotal(moves[1..])
  }

  ghost function ConsumeTotal(moves: seq<Move>): nat {
    if moves == [] then 0 else ConsumedBy(moves[0]) + ConsumeTotal(moves[1..])
  }

  ghost function SettledTotal(moves: seq<Move>): nat {
    if moves == [] then 0 else SettledBy(moves[0]) + SettledTotal(moves[1..])
  }

  /** One accepted move never lets outstanding plus consumed grow by more than it issued. */
  lemma MoveSpendsOnlyIssued(capacity: u64, t: CreditTotals, m: Move)
    requires Closed(capacity, t) && Planned(capacity, t, m).status.Ok()
    ensures var p := Planned(capacity, t, m);
            && Closed(p.capacity, p.totals)
            && Outstanding(p.capacity, p.totals) + ConsumedBy(m) <= Outstanding(capacity, t) + IssuedBy(m)
            && (m.Quarantined? ==> Outstanding(p.capacity, p.totals) == 0)
  {
    StageRefinesBuckets(capacity, t, m);
  }

  /** No double spend, over any accepted history: what is consumed plus what is still spendable never
      exceeds what was spendable at the start plus what was issued since. */
  lemma {:induction false} NoDoubleSpend(capacity: u64, t: CreditTotals, moves: seq<Move>)
    requires Closed(capacity, t) && Accepted(capacity, t, moves)
    ensures var p := After(capacity, t, moves);
            && Closed(p.capacity, p.totals)
            && ConsumeTotal(moves) + Outstanding(p.capacity, p.totals) <= IssueTotal(moves) + Outstanding(capacity, t)
    decreases |moves|
  {
    if moves != [] {
      var p := Planned(capacity, t, moves[0]);
      MoveSpendsOnlyIssued(capacity, t, moves[0]);
      NoDoubleSpend(p.capacity, p.totals, moves[1..]);
    }
  }

  /** An era's consumption is covered by the era's own issues: credit quarantined at the advance is
      never spendable again, whatever is revalidated, returned or resized afterwards. */
  lemma EraSpendsItsOwnIssues(capacity: u64, t: CreditTotals, era: seq<Move>)
    requires Closed(capacity, t) && Accepted(capacity, t, [Quarantined] + era)
    ensures ConsumeTotal(era) <= IssueTotal(era)
  {
    var moves := [Quarantined] + era;
    assert moves[1..] == era;
    var p := Planned(capacity, t, Quarantined);
    MoveSpendsOnlyIssued(capacity, t, Quarantined);
    NoDoubleSpend(p.capacity, p.totals, era);
  }

  // ---------------------------------------------------------------- consumed against issued

  lemma DraftCounts(p: Plan, m: Move)
    ensures var d, t := DraftOf(p, m), p.totals;
            && (d.Candidate? ==> d.totals.issued == t.issued + IssuedBy(m))
            && (d.Candidate? ==> d.totals.consumed == t.consumed + ConsumedBy(m) + SettledBy(m))
            && (d.Kept? || d.NewCapacity? ==> IssuedBy(m) == ConsumedBy(m) == SettledBy(m) == 0)
            && (d.Rejected? ==> !d.status.Ok())
  {
    hide ComputeView, WrapSub, Plan.ObligationFloor;
  }

  /** What an accepted move adds to the issued and consumed counters. */
  lemma MoveCounts(capacity: u64, t: CreditTotals, m: Move)
    requires Planned(capacity, t, m).status.Ok()
    ensures var p := Planned(capacity, t, m);
            p.totals.issued == t.issued + IssuedBy(m) && p.totals.consumed == t.consumed + ConsumedBy(m) + SettledBy(m)
  {
    hide DraftOf, CheckInvariants;
    DraftCounts(NewPlan(capacity, t), m);
  }

  /** The counters at the end of any accepted history. */
  lemma {:induction false} HistoryCounts(capacity: u64, t: CreditTotals, moves: seq<Move>)
    requires Closed(capacity, t) && Accepted(capacity, t, moves)
    ensures var p := After(capacity, t, moves);
            && p.totals.issued == t.issued + IssueTotal(moves)
            && p.totals.consumed == t.consumed + ConsumeTotal(moves) + SettledTotal(moves)
    decreases |moves|
  {
    if moves != [] {
      var p := Planned(capacity, t, moves[0]);
      MoveCounts(capacity, t, moves[0]);
      MoveSpendsOnlyIssued(capacity, t, moves[0]);
      HistoryCounts(p.capacity, p.totals, moves[1..]);
    }
  }

  /** Exactly when an account's `consumed` counter stays within its `issued` counter: always without ToConsumed
      revalidations, and with them as long as Consume and ToConsumed together stay within what was issued. */
  lemma ConsumedWithinIssuedIff(capacity: u64, moves: seq<Move>)
    requires Accepted(capacity, NO_TOTALS, moves)
    ensures var t := After(capacity, NO_TOTALS, moves).totals;
            && (t.consumed <= t.issued <==> ConsumeTotal(moves) + SettledTotal(moves) <= IssueTotal(moves))
            && (SettledTotal(moves) == 0 ==> t.consumed <= t.issued)
  {
    HistoryCounts(capacity, NO_TOTALS, moves);
    NoDoubleSpend(capacity, NO_TOTALS, moves);
  }

  /** What was consumed and what is still spendable is covered by what was issued. */
  predicate Backed(capacity: u64, t: CreditTotals) { t.consumed + Outstanding(capacity, t) <= t.issued }

  /** Every accepted move keeps the cover, except a ToConsumed revalidation, which keeps it exactly when its count still
      fits under it. */
  lemma MoveKeepsBackedIff(capacity: u64, t: CreditTotals, m: Move)
    requires Closed(capacity, t) && Planned(capacity, t, m).status.Ok() && Backed(capacity, t)
    ensures var p := Planned(capacity, t, m);
            Backed(p.capacity, p.totals) <==>
              (m.RevalidatedConsumed? ==> t.consumed + Outstanding(capacity, t) + m.count <= t.issued)
  {
    MoveCounts(capacity, t, m);
    MoveSpendsOnlyIssued(capacity, t, m);
    StageRefinesBuckets(capacity, t, m);
  }

  lemma AfterOne(capacity: u64, t: CreditTotals, m: Move, rest: seq<Move>, next: CreditTotals, last: CreditTotals)
    requires Planned(capacity, t, m) == Plan(capacity, next, SUCCESS)
    requires Accepted(capacity, next, rest) && After(capacity, next, rest).totals == last
    ensures Accepted(capacity, t, [m] + rest) && After(capacity, t, [m] + rest).totals == last
  {
    assert ([m] + rest)[1..] == rest;
  }

  /** `consumed` is telemetry, not a bound: at every capacity, quarantine followed by ToConsumed counts a
      spent credit twice. */
  lemma ConsumedCanExceedIssued(capacity: u64) returns (moves: seq<Move>)
    requires capacity > 0
    ensures Accepted(capacity, NO_TOTALS, moves)
    ensures After(capacity, NO_TOTALS, moves).totals.consumed > After(capacity, NO_TOTALS, moves).totals.issued
  {
    var t1, t2 := CreditTotals(1, 0, 0, 0, 0, 0), CreditTotals(1, 1, 0, 0, 1, 0);
    var t3, t4 := CreditTotals(1, 1, 0, 1, 0, 0), CreditTotals(1, 2, 0, 0, 1, 0);
    moves := [];
    AfterOne(capacity, t3, RevalidatedConsumed(1), moves, t4, t4);
    moves := [RevalidatedConsumed(1)] + moves;
    AfterOne(capacity, t2, Quarantined, moves, t3, t4);
    moves := [Quarantined] + moves;
    AfterOne(capacity, t1, Consumed(1), moves, t2, t4);
    moves := [Consumed(1)] + moves;
    AfterOne(capacity, NO_TOTALS, Issued(1, 1, 1), moves, t1, t4);
    moves := [Issued(1, 1, 1)] + moves;
  }
}
