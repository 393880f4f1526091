/** The value types every other module shares: fixed-width integers, identities, the request and
    outcome records, and the durable shapes.

    Records that carry a 128-bit digest take its type as a parameter `D`. The byte codecs use the raw
    pair of words (`Digest128`); the engine uses the idealised `Digest` of module `Digests`. */
module Types {

  const TWO64: int := 0x1_0000_0000_0000_0000

  type u8 = x: int | 0 <= x < 0x100
  type u32 = x: int | 0 <= x < 0x1_0000_0000
  type u64 = x: int | 0 <= x < 0x1_0000_0000_0000_0000

  type Bytes = seq<u8>

  /** The bound the encoders put on a note, whatever bound the engine admits (src/wire.cpp:212). */
  const ENCODED_NOTE: nat := 4096

  /** Hard ceiling on any decoded collection (src/record.cpp:15). */
  const MAX_COLLECTION: nat := 0x10_0000

  datatype Option<+T> = None | Some(value: T)

  datatype Result<+T> = Good(value: T) | Bad(status: Status)

  datatype Digest128 = Digest128(lo: u64, hi: u64)

  /** Refusal reasons, by their stable numeric values. */
  type Reason = r: nat | r < 53

  const OK: Reason := 0
  const RECONCILIATION_REQUIRED: Reason := 2
  const STALE_AUTHORITY: Reason := 3
  const STALE_EVIDENCE: Reason := 4
  const FENCED_INCARNATION: Reason := 5
  const UNKNOWN_INCARNATION: Reason := 6
  const INCARNATION_NOT_RECONCILED: Reason := 7
  const STALE_REPLAY: Reason := 8
  const SEQUENCE_GAP: Reason := 9
  const ATTEMPT_CONFLICT: Reason := 10
  const ATTEMPT_UNKNOWN: Reason := 12
  const ACCOUNT_UNKNOWN: Reason := 13
  const ACCOUNT_EXISTS: Reason := 14
  const DOMAIN_MISMATCH: Reason := 16
  const RESOURCE_MISMATCH: Reason := 17
  const PRODUCER_MISMATCH: Reason := 18
  const CONSUMER_MISMATCH: Reason := 19
  const GRANT_MISMATCH: Reason := 20
  const POLICY_REFUSED: Reason := 21
  const PROFILE_NOT_SUPPORTED: Reason := 22
  const INSUFFICIENT_AVAILABLE: Reason := 23
  const INSUFFICIENT_OUTSTANDING: Reason := 24
  const INSUFFICIENT_PROTECTED: Reason := 25
  const CAPACITY_EXCEEDED: Reason := 26
  const CAPACITY_SHRINK_VIOLATION: Reason := 27
  const CAPACITY_OUT_OF_RANGE: Reason := 28
  const COUNT_ZERO: Reason := 29
  const COUNT_OVERFLOW: Reason := 30
  const EXHAUSTED_HARD: Reason := 31
  const NOT_EXHAUSTED: Reason := 32
  const NOTHING_TO_RETIRE: Reason := 33
  const INVALID_STATE: Reason := 34
  const MALFORMED_MESSAGE: Reason := 35
  const OVERSIZED_FRAME: Reason := 37
  const JOURNAL_CORRUPT: Reason := 40
  const JOURNAL_TORN: Reason := 41
  const JOURNAL_VERSION_UNSUPPORTED: Reason := 42
  const JOURNAL_DIGEST_MISMATCH: Reason := 43
  const IO_ERROR: Reason := 44
  const TRANSPORT_ERROR: Reason := 45
  const BUDGET_EXCEEDED: Reason := 49
  const UNSUPPORTED: Reason := 50
  const NOT_OPERATOR: Reason := 51

  datatype Status = Status(reason: Reason, detail: nat) {
    predicate Ok() { reason == OK }
  }

  const SUCCESS: Status := Status(OK, 0)

  datatype OpKind =
    | Describe | Open | Issue | Consume | Return | Protect | Unprotect | Exhaust | ClearExhaustion
    | SetCapacity | AdvanceEpoch | Fence | Rotate | Retire | Revalidate | Reconcile | RetireIncarnation

  datatype RevalidationDecision = Undecided | ToReturned | ToConsumed

  datatype ProfileKind = Abstract | Synthetic | PhysicalUnvalidated | PhysicalValidated

  datatype AuthorityState = Unknown | Reconciled | Fenced | Retired

  datatype Incarnation = Incarnation(publisher: u64, boot: u64, id: u64)

  datatype AuthorityVector = AuthorityVector(
    domain: u64, account: u64, epoch: u64, generation: u64, incarnation: u64)

  datatype CreditPolicy = CreditPolicy(
    minIssue: u64, maxIssue: u64, allowProtect: bool, allowReturn: bool, allowGrowth: bool)

  datatype AccountConfig = AccountConfig(
    domain: u64, account: u64, resource: u64, policy: u64, capacity: u64, maxCapacity: u64,
    profile: ProfileKind, rules: CreditPolicy)

  datatype CreditTotals = CreditTotals(
    issued: u64, consumed: u64, returned: u64, stale: u64, spent: u64, protectedCredits: u64)

  const NO_TOTALS: CreditTotals := CreditTotals(0, 0, 0, 0, 0, 0)

  datatype CreditView = CreditView(
    capacity: u64, issued: u64, consumed: u64, returned: u64, stale: u64, spent: u64, protectedCredits: u64,
    inFlight: u64, outstanding: u64, quarantined: u64, available: u64, closed: bool)

  const NO_VIEW: CreditView := CreditView(0, 0, 0, 0, 0, 0, 0, 0, 0, 0, 0, false)

  datatype CreditRequest<+D> = CreditRequest(
    attempt: Digest128, op: OpKind, sequence: u64, authority: AuthorityVector, presenter: Incarnation,
    resource: u64, producer: u64, consumer: u64, grant: u64, target: u64, count: u64, newCapacity: u64,
    proof: D, expectedState: D, config: AccountConfig, decision: RevalidationDecision,
    fenceCause: Reason, note: Bytes)

  datatype CreditOutcome<+D> = CreditOutcome(
    status: Status, op: OpKind, sequence: u64, applied: bool, duplicate: bool, decided: bool,
    authority: AuthorityVector, view: CreditView, stateDigest: D, ambiguousPending: nat)

  /** One incarnation's standing. The attempt counters are naturals: the code increments them unchecked. */
  datatype IncarnationRecord<+D> = IncarnationRecord(
    id: u64, publisher: u64, boot: u64, state: AuthorityState, reconciledEpoch: u64,
    reconciledGeneration: u64, proof: D, producer: u64, consumer: u64, grant: u64,
    lastSequence: u64, committedOps: nat, refusedOps: nat, fencedAt: u64)

  datatype FenceRecord = FenceRecord(
    incarnation: u64, epoch: u64, generation: u64, cause: Reason, sequence: u64, fencedCredit: u64)

  datatype AmbiguousNote = AmbiguousNote(
    attempt: Digest128, op: OpKind, sequence: u64, incarnation: u64, journalSequence: nat)

  datatype DurableAccount<+D> = DurableAccount(
    config: AccountConfig, epoch: u64, generation: u64, capacity: u64, totals: CreditTotals,
    hardExhausted: bool, exhaustionCause: Reason, stateDigest: D,
    incarnations: seq<IncarnationRecord<D>>, fences: seq<FenceRecord>, ambiguous: seq<AmbiguousNote>,
    committedAttempts: nat, refusedAttempts: nat, attemptWindow: seq<(u64, u64)>)

  datatype DurableState<+D> = DurableState(
    journalSequence: nat, chain: D, snapshots: nat, accounts: seq<DurableAccount<D>>, stateDigest: D)

  datatype DurableAttempt<+D> = DurableAttempt(
    request: CreditRequest<D>, outcome: CreditOutcome<D>, hasAccount: bool, createdAccount: bool,
    account: DurableAccount<D>, engineApplied: nat, engineRefused: nat)
}
