/** Binding digests, idealised as injective constructors over exactly the fields the code hashes.
    `Literal` is a digest value a peer sent that is not the digest of anything. */
module Digests {
  import opened Types

  /** The fields of an incarnation record that `account_digest` hashes (src/engine.cpp:343-354). */
  datatype Standing = Standing(
    id: u64, publisher: u64, boot: u64, state: AuthorityState, reconciledEpoch: u64, reconciledGeneration: u64,
    producer: u64, consumer: u64, grant: u64, lastSequence: u64, committedOps: nat, refusedOps: nat)

  /** The fields of an account that `account_digest` hashes (src/engine.cpp:312-356): `spent` is not one. */
  datatype HashedAccount = HashedAccount(
    config: AccountConfig, epoch: u64, generation: u64, capacity: u64,
    issued: u64, consumed: u64, returned: u64, stale: u64, protectedCredits: u64,
    hardExhausted: bool, exhaustionCause: Reason, committedAttempts: nat, refusedAttempts: nat,
    fences: seq<FenceRecord>, incarnations: map<u64, Standing>)

  datatype Digest =
    | Literal(value: Digest128)
    | OfRequest(request: CreditRequest<Digest>)
    | OfOutcome(status: Status, op: OpKind, sequence: u64, applied: bool, decided: bool, state: Digest)
    | OfAccount(account: HashedAccount)
    | OfProof(nonce: Digest128, presenter: Incarnation, authority: AuthorityVector)
    | OfIntent(previous: Digest, position: nat, intended: Digest)
    | OfCommit(previous: Digest, position: nat, decidedRequest: Digest, outcome: Digest)
    | OfAccounts(accounts: seq<Digest>)

  const ZERO: Digest := Literal(Digest128(0, 0))

  type Request = CreditRequest<Digest>
  type Outcome = CreditOutcome<Digest>
  type Record = IncarnationRecord<Digest>

  function OutcomeDigest(o: Outcome): Digest {
    OfOutcome(o.status, o.op, o.sequence, o.applied, o.decided, o.stateDigest)
  }

  function StandingOf(r: Record): Standing {
    Standing(r.id, r.publisher, r.boot, r.state, r.reconciledEpoch, r.reconciledGeneration,
             r.producer, r.consumer, r.grant, r.lastSequence, r.committedOps, r.refusedOps)
  }

  function Standings(records: map<u64, Record>): map<u64, Standing> {
    map k | k in records :: StandingOf(records[k])
  }
}
