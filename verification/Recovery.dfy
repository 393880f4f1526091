/** Recovery from durable records (src/engine.cpp:473-841): the second, separately written implementation
    of the engine's transitions. It trusts nothing it re-derives that disagrees with the recorded digest. */
module Recovery {
  import opened Types
  import opened Digests
  import opened Ledger
  import opened Windows
  import opened Engine

  // ---------------------------------------------------------------- what the decoders can return

  /** The encoder drops a note over its own bound, so such a record does not decode; neither does a note over the
      bound the decoder is given (src/wire.cpp:212, 266). */
  predicate NoteReadable(r: Request, maxNote: nat) { |r.note| <= ENCODED_NOTE && |r.note| <= maxNote }

  predicate AccountReadable(d: DurableAccount<Digest>) {
    && |d.incarnations| <= MAX_COLLECTION && |d.fences| <= MAX_COLLECTION
    && |d.ambiguous| <= MAX_COLLECTION && |d.attemptWindow| <= MAX_COLLECTION
  }

  /** Every collection within the decoder's ceiling, and no creation without an applied account
      (src/record.cpp:202-268). */
  predicate AttemptReadable(t: DurableAttempt<Digest>) {
    NoteReadable(t.request, ENCODED_NOTE) && AccountReadable(t.account) && (t.createdAccount ==>
        t.hasAccount && t.outcome.applied)
  }

  /** src/record.cpp:330-390. */
  predicate StateReadable(s: DurableState<Digest>) {
    |s.accounts| <= MAX_COLLECTION && forall i :: 0 <= i < |s.accounts| ==> AccountReadable(s.accounts[i])
  }

  // ---------------------------------------------------------------- intents

  function NoteOf(r: Request, journalSequence: nat): AmbiguousNote {
    AmbiguousNote(r.attempt, r.op, r.sequence, r.authority.incarnation, journalSequence)
  }

  predicate HasNote(notes: seq<AmbiguousNote>, id: u64, sequence: u64) {
    exists i :: 0 <= i < |notes| && notes[i].incarnation == id && notes[i].sequence == sequence
  }

  function MarkedAmbiguous(limits: Limits, accounts: Accounts, r: Request, journalSequence: nat): Accounts {
    var id := r.authority.account;
    if id !in accounts || HasNote(accounts[id].ambiguous, r.authority.incarnation, r.sequence) then accounts else
    var a := accounts[id];
    var kept := if |a.ambiguous| >= limits.maxAmbiguous && a.ambiguous != [] then a.ambiguous[1..] else a.ambiguous;
    accounts[id := a.(ambiguous := kept + [NoteOf(r, journalSequence)])]
  }

  // ---------------------------------------------------------------- attempts

  /** 64-bit increment, which here is not checked. */
  function WrapInc(x: u64): u64 { if x + 1 < TWO64 then x + 1 else 0 }

  function Mismatch(detail: nat): Status { Status(JOURNAL_DIGEST_MISMATCH, detail) }

  function Corrupt(detail: nat): Status { Status(JOURNAL_CORRUPT, detail) }

  function ReplayPlan(a: AccountState, m: Move, code: nat): Result<AccountState> {
    var plan := Planned(a.capacity, a.totals, m);
    if plan.status.Ok() then Good(a.(capacity := plan.capacity, totals := plan.totals)) else Bad(Mismatch(code))
  }

  /** `apply_replay_transition`. */
  function ReplayTransition(a: AccountState, r: Request): Result<AccountState> {
    match r.op
    case Open => Good(a)
    case Reconcile => Good(a)
    case Fence => Good(a)
    case RetireIncarnation => Good(a)
    case Describe => Good(a)
    case Exhaust => Good(a.(hardExhausted := true, exhaustionCause := r.fenceCause))
    case ClearExhaustion => Good(a.(hardExhausted := false, exhaustionCause := OK))
    case SetCapacity => ReplayPlan(a, Resized(r.newCapacity, a.config.maxCapacity, a.config.rules.allowGrowth), 141)
    case AdvanceEpoch => ReplayAdvance(a, WrapInc(a.epoch))
    case Rotate => ReplayAdvance(a, r.count)
    case Retire => ReplayPlan(a, RetiredStale(r.count), 143)
    case Revalidate =>
      ReplayPlan(a, if r.decision ==
          ToReturned then RevalidatedReturned(r.count) else RevalidatedConsumed(r.count), 144)
    case _ =>
      var plan := LedgerVerdict(a, r);
      if plan.status.Ok() then Good(a.(totals := plan.totals)) else Bad(Mismatch(140))
  }

  function ReplayAdvance(a: AccountState, epoch: u64): Result<AccountState> {
    var plan := Planned(a.capacity, a.totals, Quarantined);
    if !plan.status.Ok() then Bad(Mismatch(142))
    else Good(a.(totals := plan.totals, epoch := epoch, generation := WrapInc(a.generation), incarnations := Demoted(a.incarnations)))
  }

  /** The incarnation standing an applied attempt leaves (src/engine.cpp:688-734). */
  function ReplayStanding(a: AccountState, r: Request): Result<AccountState> {
    var id := r.authority.incarnation;
    match r.op
    case Reconcile =>
      var record :=
        if id in a.incarnations then a.incarnations[id] else FreshRecord(id, r.presenter.publisher, r.presenter.boot);
      Good(a.(incarnations := a.incarnations[id := record.(
        state := Reconciled, reconciledEpoch := a.epoch, reconciledGeneration := a.generation, proof := r.proof)]))
    case Fence =>
      var record := if r.target in a.incarnations then a.incarnations[r.target] else FreshRecord(r.target, 0, 0);
      Good(a.(incarnations := a.incarnations[r.target := record.(state := Fenced, fencedAt := r.sequence)],
              fences := a.fences + [FenceOf(a, r)]))
    case RetireIncarnation =>
      if r.target !in a.incarnations then Bad(Corrupt(134))
      else Good(a.(incarnations := a.incarnations[r.target := a.incarnations[r.target].(state := Retired)]))
    case Issue =>
      if id !in a.incarnations then Bad(Corrupt(141)) else
      var b := a.incarnations[id];
      var b1 := if r.producer != 0 then b.(producer := r.producer) else b;
      var b2 := if r.consumer != 0 then b1.(consumer := r.consumer) else b1;
      var b3 := if r.grant != 0 then b2.(grant := r.grant) else b2;
      Good(a.(incarnations := a.incarnations[id := b3]))
    case _ => Good(a)
  }

  /** The account an attempt record rebuilds, before it is checked. */
  function Rebuilt(limits: Limits, accounts: Accounts, t: DurableAttempt<Digest>): Result<AccountState> {
    var r := t.request;
    var id := r.authority.incarnation;
    if t.createdAccount then
      if r.authority.account in accounts then Bad(Corrupt(130)) else
      var record := FreshRecord(id, r.presenter.publisher, r.presenter.boot).(
        state := Reconciled, reconciledEpoch := t.account.epoch, reconciledGeneration := t.account.generation,
        proof := r.proof, committedOps := 1);
      Good(AccountState(t.account.config, t.account.epoch, t.account.generation, t.account.capacity, t.account.totals,
                        t.account.hardExhausted, t.account.exhaustionCause, EmptyWindow(limits.maxWindow),
                        map[id := record], [], [], [], 0, 1, 0))
    else if r.authority.account !in accounts then Bad(Corrupt(131))
    else ReplayedOn(accounts[r.authority.account], t)
  }

  function ReplayedOn(a: AccountState, t: DurableAttempt<Digest>): Result<AccountState> {
    var id := t.request.authority.incarnation;
    if t.outcome.applied then
      match ReplayTransition(a, t.request)
      case Bad(s) => Bad(s)
      case Good(a1) =>
        match ReplayStanding(a1, t.request)
        case Bad(s) => Bad(s)
        case Good(a2) => Good(CountCommitted(a2, id))
    else if t.outcome.decided then Good(CountRefused(a, id))
    else Good(a)
  }

  /** What was re-derived must be what was recorded (src/engine.cpp:745-755). */
  function Verdict(a: AccountState, d: DurableAccount<Digest>): Option<Status> {
    if AccountDigest(a) != d.stateDigest then Some(Mismatch(135))
    else if a.capacity != d.capacity then Some(Mismatch(136))
    else if a.totals != d.totals then Some(Mismatch(137))
    else if a.hardExhausted != d.hardExhausted then Some(Mismatch(138))
    else if a.exhaustionCause != d.exhaustionCause then Some(Mismatch(139))
    else None
  }

  /** `replay_attempt`. */
  function ReplayAttempt(limits: Limits, st: EngineState, t: DurableAttempt<Digest>): Result<EngineState> {
    match Rebuilt(limits, st.accounts, t)
    case Bad(s) => Bad(s)
    case Good(a) =>
      match Verdict(a, t.account)
      case Some(s) => Bad(s)
      case None =>
        var a' := if t.outcome.decided then Published(a, t.request, t.outcome.(view := ViewOf(a))) else a;
        Good(st.(accounts := st.accounts[t.request.authority.account := a'], applied := t.engineApplied,
                 refused := t.engineRefused))
  }

  // ---------------------------------------------------------------- snapshots

  function RestoredRecords(records: seq<Record>): map<u64, Record> {
    if records == [] then map[] else
    var last := records[|records| - 1];
    RestoredRecords(records[..|records| - 1])[last.id := last]
  }

  /** A restored window remembers which slots were decided, not what was decided in them. */
  function RestoredEntry(slot: (u64, u64)): Entry {
    Entry(Key(slot.0, slot.1), Digest128(0, 0), ZERO, Status(ATTEMPT_UNKNOWN, 0), false, NO_VIEW)
  }

  function RestoredWindow(limit: nat, slots: seq<(u64, u64)>): Window {
    if slots == [] then EmptyWindow(limit)
    else Insert(RestoredWindow(limit, slots[..|slots| - 1]), RestoredEntry(slots[|slots| - 1]))
  }

  function RestoredAccount(limits: Limits, d: DurableAccount<Digest>): AccountState {
    AccountState(d.config, d.epoch, d.generation, d.capacity, d.totals, d.hardExhausted, d.exhaustionCause,
                 RestoredWindow(limits.maxWindow,
                                d.attemptWindow), RestoredRecords(d.incarnations), d.fences, d.ambiguous,
                 [], 0, d.committedAttempts, d.refusedAttempts)
  }

  /** `restore_durable_state`. The aggregate digest of the state is not consulted. */
  function RestoredAccounts(limits: Limits, ds: seq<DurableAccount<Digest>>): Result<Accounts> {
    if ds == [] then Good(map[]) else
    match RestoredAccounts(limits, ds[..|ds| - 1])
    case Bad(s) => Bad(s)
    case Good(accounts) =>
      var d := ds[|ds| - 1];
      var a := RestoredAccount(limits, d);
      if !CheckInvariants(a.capacity, a.totals).Ok() then Bad(Corrupt(120))
      else if AccountDigest(a) != d.stateDigest then Bad(Mismatch(121))
      else Good(accounts[d.config.account := a])
  }

  function RestoredState(limits: Limits, st: EngineState, sequence: nat, chain: Digest, s: DurableState<Digest>,
      code: nat): Result<EngineState> {
    if s.journalSequence != sequence then Bad(Mismatch(code)) else
    match RestoredAccounts(limits, s.accounts)
    case Bad(status) => Bad(status)
    case Good(accounts) =>
      Good(st.(accounts := accounts, chain := chain, next := sequence + 1, snapshots := s.snapshots))
  }

  // ---------------------------------------------------------------- the log

  const BLANK_ENGINE: EngineState := EngineState(map[], ZERO, 1, false, false, 0, 0, 0)

  function ReplayRecord(limits: Limits, st: EngineState, record: JournalRecord): Result<EngineState> {
    match record
    case IntentRecord(sequence, _, r) =>
      if !NoteReadable(r, limits.maxNote) then Bad(Corrupt(102))
      else Good(st.(accounts := MarkedAmbiguous(limits, st.accounts, r, sequence)))
    case SnapshotRecord(sequence, chain, s) =>
      if !StateReadable(s) then Bad(Corrupt(103)) else RestoredState(limits, st, sequence, chain, s, 104)
    case AttemptRecord(sequence, chain, t) =>
      if !AttemptReadable(t) then Bad(Corrupt(106))
      else if chain != OfCommit(st.chain, sequence, OfRequest(t.request), OutcomeDigest(t.outcome)) then
        Bad(Mismatch(sequence)) else
      match ReplayAttempt(limits, st, t)
      case Bad(s) => Bad(s)
      case Good(st') => Good(st'.(chain := chain, next := sequence + 1))
  }

  /** The state a snapshot file leaves, before any record is replayed. */
  function Base(limits: Limits, disk: Disk): Result<EngineState> {
    match disk.snapshot
    case None => Good(BLANK_ENGINE)
    case Some(file) =>
      if !StateReadable(file.state) then Bad(Corrupt(100))
      else RestoredState(limits, BLANK_ENGINE, file.sequence, file.chain, file.state, 101)
  }

  /** Records the snapshot file already covers are skipped. */
  predicate Covered(snapshot: Option<SnapshotFile>, record: JournalRecord) {
    snapshot.Some? && record.sequence <= snapshot.value.sequence
  }

  function Step(limits: Limits, snapshot: Option<SnapshotFile>, st: Result<EngineState>,
      record: JournalRecord): Result<EngineState> {
    if st.Bad? || Covered(snapshot, record) then st else ReplayRecord(limits, st.value, record)
  }

  /** Replay of the whole log, before liveness is withdrawn. */
  function Replay(limits: Limits, disk: Disk): Result<EngineState>
    decreases |disk.log|
  {
    if disk.log == [] then Base(limits, disk)
    else Step(limits, disk.snapshot, Replay(limits, disk.(log := disk.log[..|disk.log| - 1])), disk.log[|disk.log| - 1])
  }

  function Unreconciled(accounts: Accounts): Accounts {
    map k | k in accounts :: accounts[k].(incarnations := Demoted(accounts[k].incarnations))
  }

  /** `recover`: durable bytes never restore liveness. */
  function Recover(limits: Limits, disk: Disk): Result<EngineState> {
    match Replay(limits, disk)
    case Bad(s) => Bad(s)
    case Good(st) => Good(st.(accounts := Unreconciled(st.accounts), recovered := true))
  }

  lemma ReplayAppend(limits: Limits, disk: Disk, record: JournalRecord)
    ensures Replay(limits, Appended(disk, [record])) == Step(limits, disk.snapshot, Replay(limits, disk), record)
  {
    var longer := Appended(disk, [record]);
    assert longer.log[..|longer.log| - 1] == disk.log;
    assert longer.(log := disk.log) == disk;
  }
}
