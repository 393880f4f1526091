/** From the engine's records to the bytes of its journal file: a session's file cut at any byte recovers a live state.

    The engine's digests are ideal, the file holds 128-bit words. A representation of digests as words that is injective
    on the digests a log mentions loses nothing, and the byte-level and the session theorems join. */
module CrashFiles {
  import opened Types
  import opened Digests
  import opened Engine
  import opened Recovery
  import opened EngineInvariant
  import opened Sessions
  import opened DurableLog
  import L = LogFile
  import R = Records
  import M = Messages
  import P = Payloads

  type Rep = Digest -> Digest128

  // ---------------------------------------------------------------- records with other digests

  function RequestIn<X, Y>(f: X -> Y, r: CreditRequest<X>): CreditRequest<Y> {
    CreditRequest(r.attempt, r.op, r.sequence, r.authority, r.presenter, r.resource, r.producer, r.consumer, r.grant,
                  r.target,
                  r.count, r.newCapacity, f(r.proof), f(r.expectedState), r.config, r.decision, r.fenceCause, r.note)
  }

  function OutcomeIn<X, Y>(f: X -> Y, o: CreditOutcome<X>): CreditOutcome<Y> {
    CreditOutcome(o.status, o.op, o.sequence, o.applied, o.duplicate, o.decided, o.authority, o.view, f(o.stateDigest),
                  o.ambiguousPending)
  }

  function RecordIn<X, Y>(f: X -> Y, r: IncarnationRecord<X>): IncarnationRecord<Y> {
    IncarnationRecord(r.id, r.publisher, r.boot, r.state, r.reconciledEpoch, r.reconciledGeneration, f(r.proof),
                      r.producer,
                      r.consumer, r.grant, r.lastSequence, r.committedOps, r.refusedOps, r.fencedAt)
  }

  function AccountIn<X, Y>(f: X -> Y, d: DurableAccount<X>): DurableAccount<Y> {
    DurableAccount(d.config, d.epoch, d.generation, d.capacity, d.totals, d.hardExhausted, d.exhaustionCause,
                   f(d.stateDigest),
                   seq(|d.incarnations|, i requires 0 <= i < |d.incarnations| => RecordIn(f, d.incarnations[i])),
                   d.fences, d.ambiguous, d.committedAttempts, d.refusedAttempts, d.attemptWindow)
  }

  function AttemptIn<X, Y>(f: X -> Y, t: DurableAttempt<X>): DurableAttempt<Y> {
    DurableAttempt(RequestIn(f, t.request), OutcomeIn(f, t.outcome), t.hasAccount, t.createdAccount,
                   AccountIn(f, t.account),
                   t.engineApplied, t.engineRefused)
  }

  function StateIn<X, Y>(f: X -> Y, s: DurableState<X>): DurableState<Y> {
    DurableState(s.journalSequence, f(s.chain), s.snapshots,
                 seq(|s.accounts|, i requires 0 <= i < |s.accounts| => AccountIn(f, s.accounts[i])), f(s.stateDigest))
  }

  /** What is stored of a journal record. */
  function Written(rep: Rep, record: JournalRecord): Stored
    requires record.sequence < TWO64
  {
    match record
    case IntentRecord(sequence, chain, r) => StoredIntent(sequence, rep(chain), RequestIn(rep, r))
    case AttemptRecord(sequence, chain, t) => StoredAttempt(sequence, rep(chain), AttemptIn(rep, t))
    case SnapshotRecord(sequence, chain, s) => StoredSnapshot(sequence, rep(chain), StateIn(rep, s))
  }

  /** The journal record a stored one stands for. */
  function Understood(abs: Digest128 -> Digest, s: Stored): JournalRecord {
    match s
    case StoredIntent(sequence, chain, r) => IntentRecord(sequence, abs(chain), RequestIn(abs, r))
    case StoredAttempt(sequence, chain, t) => AttemptRecord(sequence, abs(chain), AttemptIn(abs, t))
    case StoredSnapshot(sequence, chain, d) => SnapshotRecord(sequence, abs(chain), StateIn(abs, d))
  }

  // ---------------------------------------------------------------- the digests a record mentions

  ghost predicate InRequest(r: Request, d: Digest) { d == r.proof || d == r.expectedState }

  ghost predicate InAccount(a: DurableAccount<Digest>, d: Digest) {
    d == a.stateDigest || exists i :: 0 <= i < |a.incarnations| && d == a.incarnations[i].proof
  }

  ghost predicate Mentions(record: JournalRecord, d: Digest) {
    d == record.chain ||
    match record
    case IntentRecord(_, _, r) => InRequest(r, d)
    case AttemptRecord(_, _, t) => InRequest(t.request, d) || d == t.outcome.stateDigest || InAccount(t.account, d)
    case SnapshotRecord(_, _, s) =>
      d == s.chain || d == s.stateDigest || exists i :: 0 <= i < |s.accounts| && InAccount(s.accounts[i], d)
  }

  ghost predicate LogMentions(log: seq<JournalRecord>, d: Digest) {
    exists i :: 0 <= i < |log| && Mentions(log[i], d)
  }

  ghost predicate InjectiveOn(rep: Rep, log: seq<JournalRecord>) {
    forall c, d :: LogMentions(log, c) && LogMentions(log, d) && rep(c) == rep(d) ==> c == d
  }

  /** The digest a word stands for in this log. */
  ghost function Meaning(rep: Rep, log: seq<JournalRecord>): Digest128 -> Digest {
    x => if exists d :: LogMentions(log, d) && rep(d) == x then var d :| LogMentions(log, d) && rep(d) == x; d else ZERO
  }

  // ---------------------------------------------------------------- nothing is lost

  lemma AccountBack(rep: Rep, abs: Digest128 -> Digest, a: DurableAccount<Digest>)
    requires forall d :: InAccount(a, d) ==> abs(rep(d)) == d
    ensures AccountIn(abs, AccountIn(rep, a)) == a
  {
    var back := AccountIn(abs, AccountIn(rep, a));
    forall i | 0 <= i < |a.incarnations| ensures back.incarnations[i] == a.incarnations[i] {
      assert InAccount(a, a.incarnations[i].proof);
    }
    assert back.incarnations == a.incarnations;
    assert InAccount(a, a.stateDigest);
  }

  lemma StateBack(rep: Rep, abs: Digest128 -> Digest, s: DurableState<Digest>)
    requires abs(rep(s.chain)) == s.chain && abs(rep(s.stateDigest)) == s.stateDigest
    requires forall i, d :: 0 <= i < |s.accounts| && InAccount(s.accounts[i], d) ==> abs(rep(d)) == d
    ensures StateIn(abs, StateIn(rep, s)) == s
  {
    hide AccountIn, InAccount;
    var back := StateIn(abs, StateIn(rep, s));
    forall i | 0 <= i < |s.accounts| ensures back.accounts[i] == s.accounts[i] {
      AccountBack(rep, abs, s.accounts[i]);
    }
    assert back.accounts == s.accounts;
  }

  lemma RequestBack(rep: Rep, abs: Digest128 -> Digest, r: Request)
    requires forall d :: InRequest(r, d) ==> abs(rep(d)) == d
    ensures RequestIn(abs, RequestIn(rep, r)) == r
  {
    assert InRequest(r, r.proof) && InRequest(r, r.expectedState);
  }

  lemma AttemptBack(rep: Rep, abs: Digest128 -> Digest, t: DurableAttempt<Digest>)
    requires forall d :: InRequest(t.request, d) || d == t.outcome.stateDigest || InAccount(t.account, d) ==>
               abs(rep(d)) == d
    ensures AttemptIn(abs, AttemptIn(rep, t)) == t
  {
    RequestBack(rep, abs, t.request);
    AccountBack(rep, abs, t.account);
  }

  lemma RecordBack(rep: Rep, abs: Digest128 -> Digest, record: JournalRecord)
    requires record.sequence < TWO64 && forall d :: Mentions(record, d) ==> abs(rep(d)) == d
    ensures Understood(abs, Written(rep, record)) == record
  {
    hide RequestIn, AttemptIn, StateIn, InRequest, InAccount;
    assert Mentions(record, record.chain);
    match record
    case IntentRecord(_, _, r) =>
      forall d | InRequest(r, d) ensures abs(rep(d)) == d { assert Mentions(record, d); }
      RequestBack(rep, abs, r);
    case AttemptRecord(_, _, t) =>
      forall d | InRequest(t.request, d) || d == t.outcome.stateDigest || InAccount(t.account, d)
        ensures abs(rep(d)) == d
      {
        assert Mentions(record, d);
      }
      AttemptBack(rep, abs, t);
    case SnapshotRecord(_, _, s) =>
      assert Mentions(record, s.chain) && Mentions(record, s.stateDigest);
      forall i, d | 0 <= i < |s.accounts| && InAccount(s.accounts[i], d) ensures abs(rep(d)) == d {
        assert Mentions(record, d);
      }
      StateBack(rep, abs, s);
  }

  // ---------------------------------------------------------------- readable is decodable

  /** The counters the model keeps as naturals fit the file's 64-bit fields. */
  ghost predicate AccountCounters(a: DurableAccount<Digest>) {
    && a.committedAttempts < TWO64 && a.refusedAttempts < TWO64
    && (forall i :: 0 <= i < |a.incarnations| ==>
           a.incarnations[i].committedOps < TWO64 && a.incarnations[i].refusedOps < TWO64)
    && (forall i :: 0 <= i < |a.ambiguous| ==> a.ambiguous[i].journalSequence < TWO64)
  }

  ghost predicate StateCounters(s: DurableState<Digest>) {
    s.journalSequence < TWO64 && s.snapshots < TWO64 && forall i :: 0 <= i < |s.accounts| ==>
      AccountCounters(s.accounts[i])
  }

  lemma AccountFitsIff(rep: Rep, a: DurableAccount<Digest>)
    ensures R.AccountFits(AccountIn(rep, a)) <==> AccountReadable(a) && AccountCounters(a)
  {
    var b := AccountIn(rep, a);
    assert forall i :: 0 <= i < |a.incarnations| ==> (R.RecordFits(b.incarnations[i]) <==>
      a.incarnations[i].committedOps < TWO64 && a.incarnations[i].refusedOps < TWO64);
  }

  lemma StateFitsIff(rep: Rep, s: DurableState<Digest>)
    requires StateCounters(s)
    ensures P.StateFits(StateIn(rep, s)) <==> StateReadable(s)
  {
    hide AccountIn, R.AccountFits, AccountReadable, AccountCounters;
    var t := StateIn(rep, s);
    forall i | 0 <= i < |s.accounts| ensures R.AccountFits(t.accounts[i]) <==> AccountReadable(s.accounts[i]) {
      AccountFitsIff(rep, s.accounts[i]);
    }
  }

  /** An intent decodes from its own bytes exactly when the model calls it readable. */
  lemma IntentReadableIff(rep: Rep, maxNote: nat, blank: DurableAccount<Digest128>, record: JournalRecord)
    requires record.IntentRecord? && record.sequence < TWO64
    ensures Read(maxNote, blank, EntryFor(Written(rep, record))) == Some(Written(rep, record)) <==>
              NoteReadable(record.request, maxNote)
  {
    M.RequestRoundTripIff(maxNote, RequestIn(rep, record.request));
  }

  /** So does an attempt with its account, when its counters fit their fields. */
  lemma AttemptReadableIff(rep: Rep, maxNote: nat, blank: DurableAccount<Digest128>, record: JournalRecord)
    requires record.AttemptRecord? && record.sequence < TWO64 && record.attempt.hasAccount
    requires AccountCounters(record.attempt.account)
    requires R.OutcomeFits(OutcomeIn(rep, record.attempt.outcome)) && record.attempt.engineApplied < TWO64
    requires record.attempt.engineRefused < TWO64
    ensures Read(maxNote, blank, EntryFor(Written(rep, record))) == Some(Written(rep, record)) <==>
              AttemptReadable(record.attempt)
  {
    hide AccountIn, R.AccountFits, AccountReadable, AccountCounters, P.DecodeAttempt, P.EncodeAttempt;
    var t := AttemptIn(rep, record.attempt);
    AccountFitsIff(rep, record.attempt.account);
    P.AttemptDecodes(P.EncodeAttempt(t), blank, t);
  }

  /** So does a snapshot. */
  lemma SnapshotReadableIff(rep: Rep, maxNote: nat, blank: DurableAccount<Digest128>, record: JournalRecord)
    requires record.SnapshotRecord? && record.sequence < TWO64 && StateCounters(record.state)
    ensures Read(maxNote, blank, EntryFor(Written(rep, record))) == Some(Written(rep, record)) <==>
              StateReadable(record.state)
  {
    hide StateIn, StateReadable, P.StateFits;
    var s := StateIn(rep, record.state);
    StateFitsIff(rep, record.state);
    P.StateDecodes(P.EncodeState(s), s);
  }

  // ---------------------------------------------------------------- whole logs

  ghost predicate Numberable(log: seq<JournalRecord>) { forall i :: 0 <= i < |log| ==> log[i].sequence < TWO64 }

  function WrittenAll(rep: Rep, log: seq<JournalRecord>): (stored: seq<Stored>)
    requires forall i :: 0 <= i < |log| ==> log[i].sequence < TWO64
  {
    seq(|log|, i requires 0 <= i < |log| => Written(rep, log[i]))
  }

  function UnderstoodAll(abs: Digest128 -> Digest, stored: seq<Stored>): seq<JournalRecord> {
    seq(|stored|, i requires 0 <= i < |stored| => Understood(abs, stored[i]))
  }

  /** Reading back the first records of a log, under a representation injective on the log, gives those records. */
  lemma PrefixUnderstood(rep: Rep, log: seq<JournalRecord>, k: nat)
    requires Numberable(log) && InjectiveOn(rep, log) && k <= |log|
    ensures UnderstoodAll(Meaning(rep, log), WrittenAll(rep, log)[..k]) == log[..k]
  {
    var abs, stored := Meaning(rep, log), WrittenAll(rep, log)[..k];
    forall i | 0 <= i < k ensures Understood(abs, stored[i]) == log[i] {
      forall d | Mentions(log[i], d) ensures abs(rep(d)) == d {
        assert LogMentions(log, d);
      }
      RecordBack(rep, abs, log[i]);
    }
  }

  /** Every record of the log is within the bounds of the codecs and of the file. */
  ghost predicate AllStorable(o: L.LogOptions, maxNote: nat, blank: DurableAccount<Digest128>, rep: Rep,
      log: seq<JournalRecord>) {
    Numberable(log) && forall i :: 0 <= i < |log| ==> Storable(o, maxNote, blank, Written(rep, log[i]))
  }

  /** The journal file of a log. */
  ghost function FileOf(o: L.LogOptions, rep: Rep, log: seq<JournalRecord>): Bytes
    requires Numberable(log)
  {
    L.FileBytes(o, Entries(WrittenAll(rep, log)))
  }

  /** Cut the file of any log anywhere at or after its header: what replay reads from it is a prefix of that log. */
  lemma CutFileIsPrefix(o: L.LogOptions, maxNote: nat, blank: DurableAccount<Digest128>, rep: Rep,
      log: seq<JournalRecord>, cut: nat)
      returns (k: nat)
    requires AllStorable(o, maxNote, blank, rep, log) && InjectiveOn(rep, log)
    requires L.FILE_HEADER_BYTES <= cut <= |FileOf(o, rep, log)|
    ensures k <= |log|
    ensures var read := ReadAll(maxNote, blank, L.Scanned(o, FileOf(o, rep, log)[..cut], L.FILE_HEADER_BYTES).0);
            read.Some? && UnderstoodAll(Meaning(rep, log), read.value) == log[..k]
  {
    var stored := WrittenAll(rep, log);
    CutFileDecodes(o, maxNote, blank, stored, cut);
    k := L.Whole(o, Entries(stored), cut - L.FILE_HEADER_BYTES);
    PrefixUnderstood(rep, log, k);
  }

  /** A session's journal file, cut at any byte, recovers: what is read from it is a prefix of the log the session
      wrote, and recovery from that prefix gives the live state after some number of the session's calls, or that state
      with the next call's intent pending. */
  lemma CutSessionRecovers(o: L.LogOptions, blank: DurableAccount<Digest128>, rep: Rep, boot: Boot,
      actions: seq<Action>, cut: nat)
      returns (k: nat, j: nat)
    requires FencesFit(boot.limits) && CallsOnly(actions) && Session(boot, actions) && Lossless(boot, actions)
    requires var log := RunOf(boot, actions).disk.log;
             && AllStorable(o, boot.limits.maxNote, blank, rep, log) && InjectiveOn(rep, log)
             && L.FILE_HEADER_BYTES <= cut <= |FileOf(o, rep, log)|
    ensures var log := RunOf(boot, actions).disk.log;
            var read := ReadAll(boot.limits.maxNote, blank,
                                L.Scanned(o, FileOf(o, rep, log)[..cut], L.FILE_HEADER_BYTES).0);
            && k <= |log| && j <= |actions|
            && read.Some? && UnderstoodAll(Meaning(rep, log), read.value) == log[..k]
            && PrefixIsLive(boot, actions, log, k, j)
  {
    hide RunOf, Session, Lossless, PrefixIsLive, AllStorable, InjectiveOn, UnderstoodAll, ReadAll, L.Scanned, FileOf;
    var log := RunOf(boot, actions).disk.log;
    k := CutFileIsPrefix(o, boot.limits.maxNote, blank, rep, log, cut);
    j := EveryPrefixRecovers(boot, actions, k);
  }
}
