/** The authority engine's live decisions as functions (src/engine.cpp:843-1512).

    `Decide` says what one request does to one account before anything is journaled; `Apply` adds the two
    journal records, their possible failures, and the publication that follows a durable commit.
    `CreditEngines.CreditEngine` is the code's own in-place form, proved to compute these functions. */
module Engine {
  import opened Types
  import opened Digests
  import opened Ledger
  import opened Windows

  // ---------------------------------------------------------------- state

  datatype Limits = Limits(
    maxAccounts: nat, maxIncarnations: nat, maxFences: nat, maxWindow: nat, maxAmbiguous: nat,
    maxRefusalLog: nat, maxNote: nat)

  function AtLeastOne(n: nat): nat { if n == 0 then 1 else n }

  /** The constructor's clamps: no structural bound is zero (src/engine.cpp:452-466). */
  function Clamp(l: Limits): (c: Limits)
    ensures Clamped(c) && (Clamped(l) ==> c == l)
  {
    Limits(AtLeastOne(l.maxAccounts), AtLeastOne(l.maxIncarnations), AtLeastOne(l.maxFences), AtLeastOne(l.maxWindow),
           AtLeastOne(l.maxAmbiguous), AtLeastOne(l.maxRefusalLog), AtLeastOne(l.maxNote))
  }

  predicate Clamped(l: Limits) {
    && 0 < l.maxAccounts && 0 < l.maxIncarnations && 0 < l.maxFences && 0 < l.maxWindow
    && 0 < l.maxAmbiguous && 0 < l.maxRefusalLog && 0 < l.maxNote
  }

  /** What is fixed for one boot. `idOf` is the incarnation-id hash, which stays a parameter. */
  datatype Boot = Boot(limits: Limits, operatorId: u64, nonce: Digest128, idOf: (u64, u64) -> u64)

  datatype RefusalNote = RefusalNote(
    attempt: Digest128, op: OpKind, sequence: u64, incarnation: u64, status: Status, epoch: u64, generation: u64)

  datatype AccountState = AccountState(
    config: AccountConfig, epoch: u64, generation: u64, capacity: u64, totals: CreditTotals,
    hardExhausted: bool, exhaustionCause: Reason, window: Window, incarnations: map<u64, Record>,
    fences: seq<FenceRecord>, ambiguous: seq<AmbiguousNote>, refusals: seq<RefusalNote>, refusalCursor: nat,
    committedAttempts: nat, refusedAttempts: nat)

  type Accounts = map<u64, AccountState>

  datatype EngineState = EngineState(
    accounts: Accounts, chain: Digest, next: nat, recovered: bool, failed: bool, snapshots: nat,
    applied: nat, refused: nat)

  /** The engine has recovered and has not latched a journal failure. */
  predicate Up(st: EngineState) { st.recovered && !st.failed }

  function ViewOf(a: AccountState): CreditView { ComputeView(a.capacity, a.totals) }

  function HashedOf(a: AccountState): HashedAccount {
    HashedAccount(a.config, a.epoch, a.generation, a.capacity, a.totals.issued, a.totals.consumed,
                  a.totals.returned, a.totals.stale, a.totals.protectedCredits, a.hardExhausted, a.exhaustionCause,
                  a.committedAttempts, a.refusedAttempts, a.fences, Standings(a.incarnations))
  }

  function AccountDigest(a: AccountState): Digest { OfAccount(HashedOf(a)) }

  predicate IsFenced(fences: seq<FenceRecord>, id: u64) {
    exists i :: 0 <= i < |fences| && fences[i].incarnation == id
  }

  function Watermark(a: AccountState, id: u64): u64 {
    if id in a.incarnations then a.incarnations[id].lastSequence else 0
  }

  /** An incarnation's watermark on an account, which is zero while the account does not exist. */
  function MarkOf(accounts: Accounts, acc: u64, id: u64): u64 {
    if acc in accounts then Watermark(accounts[acc], id) else 0
  }

  predicate IsLive(r: Record, epoch: u64, generation: u64) {
    r.state == Reconciled && r.reconciledEpoch == epoch && r.reconciledGeneration == generation
  }

  function FreshRecord(id: u64, publisher: u64, boot: u64): Record {
    IncarnationRecord(id, publisher, boot, Unknown, 0, 0, ZERO, 0, 0, 0, 0, 0, 0, 0)
  }

  function Demoted(records: map<u64, Record>): map<u64, Record> {
    map k | k in records :: if records[k].state == Reconciled then records[k].(state := Unknown) else records[k]
  }

  // ---------------------------------------------------------------- request classes

  predicate IsControl(op: OpKind) {
    !(op.Describe? || op.Issue? || op.Consume? || op.Return? || op.Protect? || op.Unprotect? || op.Reconcile?)
  }

  predicate RequiresCount(op: OpKind) {
    op.Issue? || op.Consume? || op.Return? || op.Protect? || op.Unprotect? || op.Retire? || op.Revalidate?
  }

  predicate AdvancesEra(op: OpKind) { op.AdvanceEpoch? || op.Rotate? }

  // ---------------------------------------------------------------- outcomes

  function Blank(r: Request): Outcome {
    CreditOutcome(SUCCESS, r.op, r.sequence, false, false, false, r.authority, NO_VIEW, ZERO, 0)
  }

  function Refused(o: Outcome, s: Status): Outcome { o.(status := s, applied := false) }

  function DecidedRefusal(o: Outcome, s: Status): Outcome { o.(status := s, applied := false, decided := true) }

  function InEra(o: Outcome, a: AccountState): Outcome {
    o.(authority := o.authority.(epoch := a.epoch, generation := a.generation))
  }

  // ---------------------------------------------------------------- admission

  /** Structural validation (src/engine.cpp:864-876): refused without a durable trace. */
  function Structural(boot: Boot, r: Request): Option<Status> {
    if r.presenter.id == 0 || r.presenter.id != r.authority.incarnation
       || boot.idOf(r.presenter.publisher, r.presenter.boot) != r.presenter.id then Some(Status(MALFORMED_MESSAGE, 2))
    else if r.authority.domain == 0 || r.authority.account == 0 then Some(Status(MALFORMED_MESSAGE, 3))
    else if r.sequence == 0 then Some(Status(MALFORMED_MESSAGE, 4))
    else if |r.note| > boot.limits.maxNote then Some(Status(OVERSIZED_FRAME, |r.note|))
    else if RequiresCount(r.op) && r.count == 0 then Some(Status(COUNT_ZERO, 1))
    else None
  }

  /** Authority binding, incarnation standing and operator class (src/engine.cpp:904-937). */
  function StandingRefusal(boot: Boot, a: AccountState, r: Request): Option<Status> {
    var id := r.authority.incarnation;
    if r.authority.domain != a.config.domain then Some(Status(DOMAIN_MISMATCH, 2))
    else if r.authority.epoch != a.epoch || r.authority.generation != a.generation then
      Some(Status(STALE_AUTHORITY, a.generation))
    else if r.op.Reconcile? then
      if IsFenced(a.fences, id) then Some(Status(FENCED_INCARNATION, id))
      else if id in a.incarnations && a.incarnations[id].state == Retired then
        Some(Status(INCARNATION_NOT_RECONCILED, id))
      else if id !in a.incarnations && |a.incarnations| >= boot.limits.maxIncarnations
      then Some(Status(BUDGET_EXCEEDED, |a.incarnations|))
      else None
    else if id !in a.incarnations then Some(Status(UNKNOWN_INCARNATION, 1))
    else if a.incarnations[id].state == Fenced then Some(Status(FENCED_INCARNATION, id))
    else if a.incarnations[id].state == Retired then Some(Status(INCARNATION_NOT_RECONCILED, id))
    else if !IsLive(a.incarnations[id], a.epoch, a.generation) then Some(Status(RECONCILIATION_REQUIRED, 3))
    else if IsControl(r.op) && id != boot.operatorId then Some(Status(NOT_OPERATOR, id))
    else None
  }

  datatype Place = Next | Duplicate(entry: Entry) | Conflict | Misplaced(status: Status)

  function SpaceExhausted(watermark: u64): Place { Misplaced(Status(BUDGET_EXCEEDED, watermark)) }

  /** Slot placement: the one slot after the watermark is next (src/engine.cpp:961-969). */
  function Positioned(watermark: u64, sequence: u64): Place {
    if sequence <= watermark then Misplaced(Status(STALE_REPLAY, watermark))
    else if watermark + 1 >= TWO64 then SpaceExhausted(watermark)
    else if sequence > watermark + 1 then Misplaced(Status(SEQUENCE_GAP, watermark + 1))
    else Next
  }

  /** Attempt identity, then slot placement (src/engine.cpp:939-969). */
  function Placement(a: AccountState, r: Request): Place {
    var key := Key(r.authority.incarnation, r.sequence);
    if key in a.window.byKey then
      if a.window.byKey[key].request == OfRequest(r) then Duplicate(a.window.byKey[key]) else Conflict
    else if KnowsAttempt(a.window, r.attempt) then Conflict
    else Positioned(Watermark(a, r.authority.incarnation), r.sequence)
  }

  /** The test for an exhausted slot space never fires: a slot above a watermark that cannot grow does not exist. */
  lemma NeverExhausted(watermark: u64, sequence: u64)
    ensures Positioned(watermark, sequence) != SpaceExhausted(watermark)
    ensures Positioned(watermark, sequence).Next? <==> sequence == watermark + 1
  {}

  // ---------------------------------------------------------------- effects of one admitted attempt

  /** Denied leaves no trace; Leaked changes the account without journaling; Declined is a decided,
      journaled refusal; Changed is an applied operation, before its counters are bumped. */
  datatype Effect =
    | Denied(status: Status)
    | Leaked(account: AccountState, status: Status)
    | Declined(account: AccountState, status: Status)
    | Changed(account: AccountState)

  function Verified(boot: Boot, r: Request): bool { r.proof == OfProof(boot.nonce, r.presenter, r.authority) }

  function ReconcileEffect(boot: Boot, a: AccountState, r: Request): Effect {
    if !Verified(boot, r) then Denied(Status(RECONCILIATION_REQUIRED, 5)) else
    var id := r.authority.incarnation;
    var record :=
      if id in a.incarnations then a.incarnations[id] else FreshRecord(id, r.presenter.publisher, r.presenter.boot);
    Changed(a.(incarnations := a.incarnations[id := record.(
      state := Reconciled, reconciledEpoch := a.epoch, reconciledGeneration := a.generation, proof := r.proof)]))
  }

  /** The first Issue fixes the producer, consumer and grant its incarnation speaks for
      (src/engine.cpp:1130-1153): fields are written one after another, up to the first mismatch. */
  function Bound(b: Record, r: Request): (Record, Option<Status>) {
    if r.producer != 0 && b.producer != 0 && b.producer != r.producer then (b, Some(Status(PRODUCER_MISMATCH, b.producer))) else
    var b1 := if r.producer != 0 then b.(producer := r.producer) else b;
    if r.consumer != 0 && b1.consumer != 0 && b1.consumer != r.consumer then (b1, Some(Status(CONSUMER_MISMATCH, b1.consumer))) else
    var b2 := if r.consumer != 0 then b1.(consumer := r.consumer) else b1;
    if r.grant != 0 && b2.grant != 0 && b2.grant != r.grant then (b2, Some(Status(GRANT_MISMATCH, b2.grant))) else
    (if r.grant != 0 then b2.(grant := r.grant) else b2, None)
  }

  /** The ledger move a data operation stages (src/engine.cpp:1053-1072). */
  function MoveOf(config: AccountConfig, r: Request): Option<Move> {
    match r.op
    case Issue => Some(Issued(r.count, config.rules.minIssue, config.rules.maxIssue))
    case Consume => Some(Consumed(r.count))
    case Return => Some(GivenBack(r.count))
    case Protect => Some(Protected(r.count, config.rules.allowProtect))
    case Unprotect => Some(Unprotected(r.count))
    case _ => None
  }

  /** `ledger_apply`: a plan whose status is the verdict. */
  function LedgerVerdict(a: AccountState, r: Request): Plan {
    var plan := NewPlan(a.capacity, a.totals);
    match MoveOf(a.config, r)
    case None => plan.(status := Status(INVALID_STATE, 10))
    case Some(move) =>
      if r.op.Return? && !a.config.rules.allowReturn then plan.(status := Status(POLICY_REFUSED, 2))
      else Run(plan, move)
  }

  function LedgerEffect(a: AccountState, r: Request): Effect {
    var plan := LedgerVerdict(a, r);
    if plan.status.Ok() then Changed(a.(totals := plan.totals)) else Declined(a, plan.status)
  }

  function IssueEffect(a: AccountState, r: Request): Effect {
    var id := r.authority.incarnation;
    if a.hardExhausted then Declined(a, Status(EXHAUSTED_HARD, a.exhaustionCause))
    else if id !in a.incarnations then Denied(Status(UNKNOWN_INCARNATION, 3))
    else
      var bound := Bound(a.incarnations[id], r);
      var a' := a.(incarnations := a.incarnations[id := bound.0]);
      if bound.1.Some? then Declined(a', bound.1.value) else LedgerEffect(a', r)
  }

  function DataEffect(boot: Boot, a: AccountState, r: Request): Effect {
    match r.op
    case Reconcile => ReconcileEffect(boot, a, r)
    case Issue => IssueEffect(a, r)
    case _ => LedgerEffect(a, r)
  }

  function PlanEffect(a: AccountState, m: Move): Effect {
    var plan := Planned(a.capacity, a.totals, m);
    if plan.status.Ok() then Changed(a.(capacity := plan.capacity, totals := plan.totals)) else Declined(a, plan.status)
  }

  /** A new authority era: quarantine every in-flight credit and demote every live incarnation. */
  function AdvanceEffect(a: AccountState, r: Request): Effect {
    if r.op.Rotate? && r.count <= a.epoch then Denied(Status(INVALID_STATE, a.epoch))
    else if !r.op.Rotate? && a.epoch + 1 >= TWO64 then Denied(Status(COUNT_OVERFLOW, a.epoch))
    else if a.generation + 1 >= TWO64 then Denied(Status(COUNT_OVERFLOW, a.generation))
    else
      var epoch := if r.op.Rotate? then r.count else a.epoch + 1;
      var plan := Planned(a.capacity, a.totals, Quarantined);
      if !plan.status.Ok() then Denied(plan.status)
      else Changed(a.(totals := plan.totals, epoch := epoch, generation := a.generation + 1, incarnations := Demoted(a.incarnations)))
  }

  function FenceOf(a: AccountState, r: Request): FenceRecord {
    FenceRecord(r.target, a.epoch, a.generation, r.fenceCause, r.sequence, WrapSub(ViewOf(a).inFlight, ViewOf(a).stale))
  }

  function FenceEffect(limits: Limits, a: AccountState, r: Request): Effect {
    if r.target == 0 then Denied(Status(MALFORMED_MESSAGE, 5))
    else if r.fenceCause == OK then Denied(Status(POLICY_REFUSED, 5))
    else if IsFenced(a.fences, r.target) then Declined(a, Status(INVALID_STATE, 1))
    else if r.target !in a.incarnations && |a.incarnations| >= limits.maxIncarnations then
      Denied(Status(BUDGET_EXCEEDED, |a.incarnations|))
    else
      var record := if r.target in a.incarnations then a.incarnations[r.target] else FreshRecord(r.target, 0, 0);
      if |a.fences| >= limits.maxFences
      then Leaked(a.(incarnations := a.incarnations[r.target := record]), Status(BUDGET_EXCEEDED, |a.fences|))
      else Changed(a.(incarnations := a.incarnations[r.target := record.(state := Fenced, fencedAt := r.sequence)],
                      fences := a.fences + [FenceOf(a, r)]))
  }

  function RetireIncarnationEffect(a: AccountState, r: Request): Effect {
    if r.target == 0 then Denied(Status(MALFORMED_MESSAGE, 6))
    else if r.target !in a.incarnations then Denied(Status(UNKNOWN_INCARNATION, 2))
    else if a.incarnations[r.target].state == Fenced then Declined(a, Status(FENCED_INCARNATION, 1))
    else Changed(a.(incarnations := a.incarnations[r.target := a.incarnations[r.target].(state := Retired)]))
  }

  function ControlEffect(limits: Limits, a: AccountState, r: Request): Effect {
    if r.expectedState != ZERO && r.expectedState != AccountDigest(a) then Denied(Status(STALE_EVIDENCE, 1)) else
    match r.op
    case Exhaust =>
      if a.hardExhausted then Declined(a, Status(EXHAUSTED_HARD, 1))
      else if r.fenceCause == OK then Denied(Status(POLICY_REFUSED, 3))
      else Changed(a.(hardExhausted := true, exhaustionCause := r.fenceCause))
    case ClearExhaustion =>
      if !a.hardExhausted then Declined(a, Status(NOT_EXHAUSTED, 1))
      else Changed(a.(hardExhausted := false, exhaustionCause := OK))
    case SetCapacity => PlanEffect(a, Resized(r.newCapacity, a.config.maxCapacity, a.config.rules.allowGrowth))
    case AdvanceEpoch => AdvanceEffect(a, r)
    case Rotate => AdvanceEffect(a, r)
    case Retire => PlanEffect(a, RetiredStale(r.count))
    case Revalidate =>
      if r.decision == Undecided then Denied(Status(POLICY_REFUSED, 4))
      else PlanEffect(a, if r.decision ==
          ToReturned then RevalidatedReturned(r.count) else RevalidatedConsumed(r.count))
    case Fence => FenceEffect(limits, a, r)
    case RetireIncarnation => RetireIncarnationEffect(a, r)
    case _ => Denied(Status(UNSUPPORTED, 0))
  }

  // ---------------------------------------------------------------- decisions

  function CountCommitted(a: AccountState, id: u64): AccountState {
    var records := if id in a.incarnations
                   then a.incarnations[id := a.incarnations[id].(committedOps := a.incarnations[id].committedOps + 1)]
                   else a.incarnations;
    a.(committedAttempts := a.committedAttempts + 1, incarnations := records)
  }

  function CountRefused(a: AccountState, id: u64): AccountState {
    var records := if id in a.incarnations
                   then a.incarnations[id := a.incarnations[id].(refusedOps := a.incarnations[id].refusedOps + 1)]
                   else a.incarnations;
    a.(refusedAttempts := a.refusedAttempts + 1, incarnations := records)
  }

  /** What a request comes to before journaling. A `Commit` becomes the account `after` once its record is
      durable, and the account `fallback` when it cannot be made durable (None: the account is erased). */
  datatype Decision =
    | Reply(outcome: Outcome)
    | Leak(account: AccountState, outcome: Outcome)
    | Commit(after: AccountState, fallback: Option<AccountState>, outcome: Outcome)

  /** After a failed era advance the rollback restores the caller and the target, and nobody else
      (src/engine.cpp:406-429): other live incarnations stay demoted. Every other operation is undone exactly. */
  function Fallback(a: AccountState, r: Request): AccountState {
    if AdvancesEra(r.op) then
      a.(incarnations := map k | k in a.incarnations ::
           if k == r.authority.incarnation || (r.target != 0 && k == r.target) then a.incarnations[k] else Demoted(a.incarnations)[k])
    else a
  }

  function Stamped(o: Outcome, a: AccountState): Outcome {
    o.(view := ViewOf(a), stateDigest := AccountDigest(a))
  }

  function Conclude(a: AccountState, r: Request, o: Outcome, e: Effect): Decision {
    var id := r.authority.incarnation;
    match e
    case Denied(s) => Reply(Refused(o, s))
    case Leaked(a', s) => Leak(a', Refused(o, s))
    case Declined(a', s) =>
      var after := CountRefused(a', id);
      Commit(after, Some(a'), Stamped(DecidedRefusal(o, s), after))
    case Changed(a') =>
      var after := CountCommitted(a', id);
      Commit(after, Some(Fallback(a, r)), Stamped(o.(status := SUCCESS, applied := true, decided := true), after))
  }

  /** A request against an existing account (src/engine.cpp:900-975). */
  function DecideOn(boot: Boot, a: AccountState, r: Request): Decision {
    match StandingRefusal(boot, a, r)
    case Some(s) => Reply(Refused(Blank(r), s))
    case None =>
      match Placement(a, r)
      case Duplicate(e) =>
        Reply(InEra(Stamped(Blank(r).(status := e.status, duplicate := true, decided := true), a), a))
      case Conflict => Reply(DecidedRefusal(Blank(r), Status(ATTEMPT_CONFLICT, r.sequence)))
      case Misplaced(s) => Reply(Refused(Blank(r), s))
      case Next =>
        Conclude(a, r, InEra(Blank(r), a),
                 if IsControl(r.op) then ControlEffect(boot.limits, a, r) else DataEffect(boot, a, r))
  }

  function DescribeOn(a: AccountState, r: Request): Outcome {
    if r.authority.domain != a.config.domain then Refused(Blank(r), Status(DOMAIN_MISMATCH, 1))
    else InEra(Stamped(Blank(r), a), a).(ambiguousPending := |a.ambiguous|, sequence := Watermark(a, r.authority.incarnation))
  }

  /** The refusals of an Open (src/engine.cpp:978-1004). */
  function OpenRefusal(boot: Boot, accounts: Accounts, r: Request): Option<Status> {
    var c := r.config;
    if r.authority.account in accounts then Some(Status(ACCOUNT_EXISTS, r.authority.account))
    else if c.domain != r.authority.domain || c.account != r.authority.account then Some(Status(DOMAIN_MISMATCH, 3))
    else if c.resource == 0 then Some(Status(RESOURCE_MISMATCH, 1))
    else if r.authority.epoch != 1 || r.authority.generation != 1 then Some(Status(STALE_AUTHORITY, 1))
    else if c.capacity == 0 || c.maxCapacity < c.capacity then Some(Status(CAPACITY_OUT_OF_RANGE, c.capacity))
    else if c.profile == PhysicalValidated then Some(Status(PROFILE_NOT_SUPPORTED, 3))
    else if c.rules.minIssue == 0 || c.rules.maxIssue < c.rules.minIssue then Some(Status(POLICY_REFUSED, 1))
    else if |accounts| >= boot.limits.maxAccounts then Some(Status(BUDGET_EXCEEDED, |accounts|))
    else if r.sequence != 1 then Some(Status(SEQUENCE_GAP, 1))
    else if !Verified(boot, r) then Some(Status(RECONCILIATION_REQUIRED, 4))
    else None
  }

  function OpenerRecord(r: Request): Record {
    FreshRecord(r.authority.incarnation, r.presenter.publisher, r.presenter.boot).(
      state := Reconciled, reconciledEpoch := r.authority.epoch, reconciledGeneration := r.authority.generation,
      proof := r.proof, committedOps := 1)
  }

  function Opened(limits: Limits, r: Request): AccountState {
    AccountState(r.config, r.authority.epoch, r.authority.generation, r.config.capacity, NO_TOTALS, false, OK,
                 EmptyWindow(limits.maxWindow), map[r.authority.incarnation := OpenerRecord(r)], [], [], [], 0, 1, 0)
  }

  function OpenDecision(boot: Boot, accounts: Accounts, r: Request): Decision {
    match OpenRefusal(boot, accounts, r)
    case Some(s) => Reply(Refused(Blank(r), s))
    case None =>
      var a := Opened(boot.limits, r);
      Commit(a, None, Stamped(Blank(r).(applied := true, decided := true), a))
  }

  /** The whole decision path of `apply` (src/engine.cpp:847-975). */
  function Decide(boot: Boot, st: EngineState, r: Request): Decision {
    if !st.recovered then Reply(Refused(Blank(r), Status(RECONCILIATION_REQUIRED, 1)))
    else if st.failed then Reply(Refused(Blank(r), Status(IO_ERROR, 2)))
    else
      match Structural(boot, r)
      case Some(s) => Reply(Refused(Blank(r), s))
      case None =>
        if r.op.Open? then OpenDecision(boot, st.accounts, r)
        else if r.authority.account !in st.accounts then
          Reply(Refused(Blank(r), Status(ACCOUNT_UNKNOWN, if r.op.Describe? then 1 else 2)))
        else if r.op.Describe? then Reply(DescribeOn(st.accounts[r.authority.account], r))
        else DecideOn(boot, st.accounts[r.authority.account], r)
  }

  // ---------------------------------------------------------------- journal and publication

  datatype JournalRecord =
    | IntentRecord(sequence: nat, chain: Digest, request: Request)
    | AttemptRecord(sequence: nat, chain: Digest, attempt: DurableAttempt<Digest>)
    | SnapshotRecord(sequence: nat, chain: Digest, state: DurableState<Digest>)

  datatype SnapshotFile = SnapshotFile(sequence: nat, chain: Digest, state: DurableState<Digest>)

  datatype Disk = Disk(log: seq<JournalRecord>, snapshot: Option<SnapshotFile>)

  type Refusal = r: Reason | r != OK witness 1

  /** How one durable write ends. A failed write may still have reached the disk. */
  datatype Fate = Written | Failed(reason: Refusal, detail: nat, present: bool)

  datatype Io = Io(intent: Fate, commit: Fate)

  const ALL_WRITTEN: Io := Io(Written, Written)

  /** `build_durable_account` without the collections. */
  function DurableOf(a: AccountState): DurableAccount<Digest> {
    DurableAccount(a.config, a.epoch, a.generation, a.capacity, a.totals, a.hardExhausted, a.exhaustionCause,
                   AccountDigest(a), [], [], [], a.committedAttempts, a.refusedAttempts, [])
  }

  function AttemptOf(st: EngineState, r: Request, o: Outcome, after: AccountState): DurableAttempt<Digest> {
    DurableAttempt(r, o, true, r.op.Open?, DurableOf(after), st.applied, st.refused)
  }

  function IntentFor(st: EngineState, r: Request): JournalRecord {
    IntentRecord(st.next, OfIntent(st.chain, st.next, OfRequest(r)), r)
  }

  function CommitFor(st: EngineState, r: Request, o: Outcome, after: AccountState): JournalRecord {
    AttemptRecord(st.next + 1, OfCommit(st.chain, st.next + 1, OfRequest(r), OutcomeDigest(o)),
                  AttemptOf(st, r, o, after))
  }

  function EntryOf(r: Request, o: Outcome): Entry {
    Entry(Key(r.authority.incarnation, r.sequence), r.attempt, OfRequest(r), o.status, o.applied, o.view)
  }

  function Resolved(notes: seq<AmbiguousNote>, id: u64, sequence: u64): seq<AmbiguousNote> {
    if notes == [] then []
    else if notes[0].incarnation == id && notes[0].sequence == sequence then Resolved(notes[1..], id, sequence)
    else [notes[0]] + Resolved(notes[1..], id, sequence)
  }

  function Marked(records: map<u64, Record>, id: u64, sequence: u64): map<u64, Record> {
    if id in records then records[id := records[id].(lastSequence := sequence)] else records
  }

  /** `publish_window_locked`. */
  function Published(a: AccountState, r: Request, o: Outcome): AccountState {
    var id := r.authority.incarnation;
    a.(window := Insert(a.window, EntryOf(r, o)), incarnations := Marked(a.incarnations, id, r.sequence),
       ambiguous := Resolved(a.ambiguous, id, r.sequence))
  }

  /** `record_refusal_locked`: a bounded ring of refusal notes. */
  function Noted(limits: Limits, a: AccountState, r: Request, o: Outcome): AccountState {
    var note := RefusalNote(r.attempt, r.op, r.sequence, r.authority.incarnation, o.status, a.epoch, a.generation);
    if |a.refusals| < limits.maxRefusalLog then a.(refusals := a.refusals + [note])
    else if limits.maxRefusalLog == 0 then a
    else
      var at := a.refusalCursor % limits.maxRefusalLog;
      a.(refusals := a.refusals[at := note], refusalCursor := (a.refusalCursor + 1) % limits.maxRefusalLog)
  }

  function Settled(limits: Limits, a: AccountState, r: Request, o: Outcome): AccountState {
    if o.applied then Published(a, r, o) else Noted(limits, Published(a, r, o), r, o)
  }

  function Restore(accounts: Accounts, id: u64, fallback: Option<AccountState>): Accounts {
    match fallback
    case None => accounts - {id}
    case Some(a) => accounts[id := a]
  }

  datatype Applied = Applied(state: EngineState, disk: Disk, outcome: Outcome)

  function Appended(disk: Disk, records: seq<JournalRecord>): Disk { disk.(log := disk.log + records) }

  function Undone(o: Outcome, f: Fate): Outcome
    requires f.Failed?
  {
    o.(applied := false, decided := false, status := Status(f.reason, f.detail))
  }

  /** Journal a decision and publish it, with the fates the environment gives its two journal writes. */
  function Finish(limits: Limits, st: EngineState, disk: Disk, r: Request, io: Io, d: Decision): Applied {
    var id := r.authority.account;
    match d
    case Reply(o) => Applied(st, disk, o)
    case Leak(a, o) => Applied(st.(accounts := st.accounts[id := a]), disk, o)
    case Commit(after, fallback, o) =>
      var intent, commit := IntentFor(st, r), CommitFor(st, r, o, after);
      if io.intent.Failed? then
        Applied(st.(accounts := Restore(st.accounts, id, fallback), failed := true),
                Appended(disk, if io.intent.present then [intent] else []), Undone(o, io.intent))
      else if io.commit.Failed? then
        Applied(st.(accounts := Restore(st.accounts, id, fallback), failed := true, next := st.next + 1),
                Appended(disk, if io.commit.present then [intent, commit] else [intent]), Undone(o, io.commit))
      else
        Applied(st.(accounts := st.accounts[id := Settled(limits, after, r, o)], chain := commit.chain,
                    next := st.next + 2,
                    applied := st.applied + (if o.applied then 1 else 0), refused := st.refused + (if o.applied then 0 else 1)),
                Appended(disk, [intent, commit]), o)
  }

  /** One call of `apply`. */
  function Apply(boot: Boot, st: EngineState, disk: Disk, r: Request, io: Io): Applied {
    Finish(boot.limits, st, disk, r, io, Decide(boot, st, r))
  }
}
