/** The concrete messages and durable records (src/wire.cpp:97-308, src/record.cpp): their formats, in the order the
    code writes the fields, and the conversions between the records and the grammar's values. */
module Records {
  import opened Types
  import opened ByteCodec
  import opened Formats

  type WireRequest = CreditRequest<Digest128>
  type WireOutcome = CreditOutcome<Digest128>
  type WireRecord = IncarnationRecord<Digest128>
  type WireAccount = DurableAccount<Digest128>
  type WireState = DurableState<Digest128>
  type WireAttempt = DurableAttempt<Digest128>

  // ---------------------------------------------------------------- columns

  const WORD: Col := Col(8, 0x1_0000_0000_0000_0000)
  const FLAG: Col := Col(1, 2)
  const OP: Col := Col(1, 17)
  const REASON: Col := Col(2, 53)
  const PROFILE: Col := Col(1, 4)
  const DECISION: Col := Col(1, 3)
  const STANDING: Col := Col(1, 4)

  const AUTHORITY: Format := Row([WORD, WORD, WORD, WORD, WORD])
  const CONFIG: Format := Row([WORD, WORD, WORD, WORD, WORD, WORD, PROFILE, WORD, WORD, FLAG, FLAG, FLAG])
  const VIEW: Format := Row([WORD, WORD, WORD, WORD, WORD, WORD, WORD, WORD, WORD, WORD, FLAG])
  const REQUEST_HEAD: Format := Row([WORD, WORD, OP, WORD])
  const PRESENTER: Format := Row([WORD, WORD, WORD])
  const NAMES: Format := Row([WORD, WORD, WORD, WORD, WORD, WORD, WORD])
  const PROOFS: Format := Row([WORD, WORD, WORD, WORD])
  const REQUEST_TAIL: Format := Row([DECISION, REASON])
  const OUTCOME_HEAD: Format := Row([REASON, WORD, OP, WORD, FLAG, FLAG, FLAG])
  const OUTCOME_TAIL: Format := Row([WORD, WORD, WORD])
  const ERA: Format := Row([WORD, WORD, WORD])
  const TOTALS: Format := Row([WORD, WORD, WORD, WORD, WORD, WORD])
  const LATCH: Format := Row([FLAG, REASON, WORD, WORD])
  const INCARNATION: Format := Row([WORD, WORD, WORD, STANDING, WORD, WORD, WORD, WORD, WORD, WORD, WORD, WORD, WORD,
                                    WORD, WORD])
  const FENCE: Format := Row([WORD, WORD, WORD, REASON, WORD, WORD])
  const AMBIGUOUS: Format := Row([WORD, WORD, OP, WORD, WORD, WORD])
  const SLOT: Format := Row([WORD, WORD])
  const COUNTERS: Format := Row([WORD, WORD])
  const FLAGS: Format := Row([FLAG, FLAG])
  const STATE_HEAD: Format := Row([WORD, WORD, WORD, WORD, WORD, WORD])

  function REQUEST(maxNote: nat): Format {
    Both(Both(Both(REQUEST_HEAD, AUTHORITY), Both(PRESENTER, NAMES)),
         Both(Both(PROOFS, CONFIG), Both(REQUEST_TAIL, Text(maxNote))))
  }

  const OUTCOME: Format := Both(Both(OUTCOME_HEAD, AUTHORITY), Both(VIEW, OUTCOME_TAIL))

  const ACCOUNT_LEDGER: Format := Both(Both(CONFIG, ERA), Both(TOTALS, LATCH))
  const ACCOUNT_PEOPLE: Format := Both(Many(INCARNATION, 112), Many(FENCE, 40))
  const ACCOUNT_SLOTS: Format := Both(Many(AMBIGUOUS, 40), Both(COUNTERS, Many(SLOT, 16)))
  const ACCOUNT: Format := Both(ACCOUNT_LEDGER, Both(ACCOUNT_PEOPLE, ACCOUNT_SLOTS))

  const STATE: Format := Both(STATE_HEAD, Many(Framed(ACCOUNT), 4))

  // ---------------------------------------------------------------- enumerations

  function FlagCode(b: bool): nat { if b then 1 else 0 }

  function OpCode(op: OpKind): nat {
    match op
    case Describe => 0 case Open => 1 case Issue => 2 case Consume => 3 case Return => 4 case Protect => 5
    case Unprotect => 6 case Exhaust => 7 case ClearExhaustion => 8 case SetCapacity => 9 case AdvanceEpoch => 10
    case Fence =>
      11 case Rotate => 12 case Retire => 13 case Revalidate => 14 case Reconcile => 15 case RetireIncarnation => 16
  }

  function OpOf(n: nat): OpKind {
    if n == 0 then Describe else if n == 1 then Open else if n == 2 then Issue else if n == 3 then Consume
    else if n == 4 then Return else if n == 5 then Protect else if n == 6 then Unprotect else if n == 7 then Exhaust
    else if n == 8 then ClearExhaustion else if n == 9 then SetCapacity else if n == 10 then AdvanceEpoch
    else if n == 11 then Fence else if n == 12 then Rotate else if n == 13 then Retire else if n == 14 then Revalidate
    else if n == 15 then Reconcile else RetireIncarnation
  }

  function ProfileCode(p: ProfileKind): nat {
    match p case Abstract => 0 case Synthetic => 1 case PhysicalUnvalidated => 2 case PhysicalValidated => 3
  }

  function ProfileOf(n: nat): ProfileKind {
    if n == 0 then Abstract else if n == 1 then Synthetic else if n == 2 then PhysicalUnvalidated else PhysicalValidated
  }

  function DecisionCode(d: RevalidationDecision): nat {
    match d case Undecided => 0 case ToReturned => 1 case ToConsumed => 2
  }

  function DecisionOf(n: nat): RevalidationDecision {
    if n == 0 then Undecided else if n == 1 then ToReturned else ToConsumed
  }

  function StateCode(s: AuthorityState): nat {
    match s case Unknown => 0 case Reconciled => 1 case Fenced => 2 case Retired => 3
  }

  function StateOf(n: nat): AuthorityState {
    if n == 0 then Unknown else if n == 1 then Reconciled else if n == 2 then Fenced else Retired
  }

  // ---------------------------------------------------------------- rows

  function AuthorityNums(a: AuthorityVector): seq<nat> { [a.domain, a.account, a.epoch, a.generation, a.incarnation] }

  function AuthorityOf(v: Value): AuthorityVector
    requires Fits(AUTHORITY, v)
  {
    AuthorityVector(v.nums[0], v.nums[1], v.nums[2], v.nums[3], v.nums[4])
  }

  lemma AuthorityInverse(a: AuthorityVector)
    ensures Fits(AUTHORITY, Nums(AuthorityNums(a))) && AuthorityOf(Nums(AuthorityNums(a))) == a
  {}

  function ConfigNums(c: AccountConfig): seq<nat> {
    [c.domain, c.account, c.resource, c.policy, c.capacity, c.maxCapacity, ProfileCode(c.profile), c.rules.minIssue,
     c.rules.maxIssue, FlagCode(c.rules.allowProtect), FlagCode(c.rules.allowReturn), FlagCode(c.rules.allowGrowth)]
  }

  function ConfigOf(v: Value): AccountConfig
    requires Fits(CONFIG, v)
  {
    var n := v.nums;
    AccountConfig(n[0], n[1], n[2], n[3], n[4], n[5], ProfileOf(n[6]),
                  CreditPolicy(n[7], n[8], n[9] == 1, n[10] == 1, n[11] == 1))
  }

  lemma ConfigInverse(c: AccountConfig)
    ensures Fits(CONFIG, Nums(ConfigNums(c))) && ConfigOf(Nums(ConfigNums(c))) == c
  {}

  lemma ConfigBack(v: Value)
    requires Fits(CONFIG, v)
    ensures ConfigNums(ConfigOf(v)) == v.nums
  {}

  /** A view is written without `quarantined`, which reading restores from `stale`. */
  function ViewNums(w: CreditView): seq<nat> {
    [w.capacity, w.issued, w.consumed, w.returned, w.stale, w.spent, w.protectedCredits, w.inFlight, w.outstanding,
     w.available, FlagCode(w.closed)]
  }

  function ViewFrom(v: Value): CreditView
    requires Fits(VIEW, v)
  {
    var n := v.nums;
    CreditView(n[0], n[1], n[2], n[3], n[4], n[5], n[6], n[7], n[8], n[4], n[9], n[10] == 1)
  }

  lemma ViewBack(v: Value)
    requires Fits(VIEW, v)
    ensures ViewNums(ViewFrom(v)) == v.nums && ViewFrom(v).quarantined == ViewFrom(v).stale
  {}

  // ---------------------------------------------------------------- requests

  function HeadNums(r: WireRequest): seq<nat> { [r.attempt.lo, r.attempt.hi, OpCode(r.op), r.sequence] }
  function PresenterNums(r: WireRequest): seq<nat> { [r.presenter.publisher, r.presenter.boot, r.presenter.id] }
  function NamesNums(r: WireRequest): seq<nat> { [r.resource, r.producer, r.consumer, r.grant, r.target, r.count,
      r.newCapacity] }
  function ProofsNums(r: WireRequest): seq<nat> { [r.proof.lo, r.proof.hi, r.expectedState.lo, r.expectedState.hi] }
  function TailNums(r: WireRequest): seq<nat> { [DecisionCode(r.decision), r.fenceCause] }

  function RequestValue(r: WireRequest): Value {
    Pair(Pair(Pair(Nums(HeadNums(r)), Nums(AuthorityNums(r.authority))),
              Pair(Nums(PresenterNums(r)), Nums(NamesNums(r)))),
         Pair(Pair(Nums(ProofsNums(r)), Nums(ConfigNums(r.config))), Pair(Nums(TailNums(r)), Chars(r.note))))
  }

  ghost predicate IsRequest(maxNote: nat, v: Value) {
    && v.Pair? && v.first.Pair? && v.second.Pair?
    && v.first.first.Pair? && Fits(REQUEST_HEAD, v.first.first.first) && Fits(AUTHORITY, v.first.first.second)
    && v.first.second.Pair? && Fits(PRESENTER, v.first.second.first) && Fits(NAMES, v.first.second.second)
    && v.second.first.Pair? && Fits(PROOFS, v.second.first.first) && Fits(CONFIG, v.second.first.second)
    && v.second.second.Pair? && Fits(REQUEST_TAIL, v.second.second.first) && Fits(Text(maxNote), v.second.second.second)
  }

  lemma RequestParts(maxNote: nat, v: Value)
    ensures Fits(REQUEST(maxNote), v) <==> IsRequest(maxNote, v)
  {
    if v.Pair? {
      var who, what := Both(Both(REQUEST_HEAD, AUTHORITY), Both(PRESENTER, NAMES)), Both(Both(PROOFS, CONFIG),
          Both(REQUEST_TAIL, Text(maxNote)));
      assert Fits(REQUEST(maxNote), v) <==> Fits(who, v.first) && Fits(what, v.second);
      PairParts(REQUEST_HEAD, AUTHORITY, PRESENTER, NAMES, v.first);
      PairParts(PROOFS, CONFIG, REQUEST_TAIL, Text(maxNote), v.second);
    }
  }

  lemma PairParts(a: Format, b: Format, c: Format, d: Format, v: Value)
    ensures Fits(Both(Both(a, b), Both(c, d)), v) <==>
            && v.Pair? && v.first.Pair? && v.second.Pair?
            && Fits(a, v.first.first) && Fits(b, v.first.second) && Fits(c, v.second.first) && Fits(d, v.second.second)
  {
    if v.Pair? {
      assert Fits(Both(a, b), v.first) <==> v.first.Pair? && Fits(a, v.first.first) && Fits(b, v.first.second);
      assert Fits(Both(c, d), v.second) <==> v.second.Pair? && Fits(c, v.second.first) && Fits(d, v.second.second);
    }
  }

  function RequestOf(maxNote: nat, v: Value): WireRequest
    requires IsRequest(maxNote, v)
  {
    var head, presenter, names := v.first.first.first.nums, v.first.second.first.nums, v.first.second.second.nums;
    var proofs, tail := v.second.first.first.nums, v.second.second.first.nums;
    CreditRequest(
      Digest128(head[0], head[1]), OpOf(head[2]), head[3], AuthorityOf(v.first.first.second),
      Incarnation(presenter[0], presenter[1],
                  presenter[2]), names[0], names[1], names[2], names[3], names[4], names[5], names[6],
      Digest128(proofs[0], proofs[1]), Digest128(proofs[2], proofs[3]), ConfigOf(v.second.first.second),
      DecisionOf(tail[0]), tail[1], v.second.second.second.text)
  }

  lemma RequestRowsFit(r: WireRequest)
    ensures Fits(REQUEST_HEAD, Nums(HeadNums(r))) && Fits(PRESENTER, Nums(PresenterNums(r)))
    ensures Fits(NAMES, Nums(NamesNums(r)))
    ensures Fits(PROOFS, Nums(ProofsNums(r))) && Fits(REQUEST_TAIL, Nums(TailNums(r)))
  {}

  predicate NoteFits(maxNote: nat, r: WireRequest) { |r.note| <= maxNote && |r.note| < 0x1_0000_0000 }

  lemma RequestInverse(maxNote: nat, r: WireRequest)
    requires NoteFits(maxNote, r)
    ensures IsRequest(maxNote, RequestValue(r)) && RequestOf(maxNote, RequestValue(r)) == r
  {
    RequestRowsFit(r);
    AuthorityInverse(r.authority);
    ConfigInverse(r.config);
  }

  lemma RequestBack(maxNote: nat, v: Value)
    requires IsRequest(maxNote, v)
    ensures RequestValue(RequestOf(maxNote, v)) == v && NoteFits(maxNote, RequestOf(maxNote, v))
  {
    RequestWhoBack(maxNote, v);
    RequestWhatBack(maxNote, v);
  }

  lemma RequestWhoBack(maxNote: nat, v: Value)
    requires IsRequest(maxNote, v)
    ensures RequestValue(RequestOf(maxNote, v)).first == v.first
  {
    hide ConfigOf;
    var r := RequestOf(maxNote, v);
    assert HeadNums(r) == v.first.first.first.nums;
    assert PresenterNums(r) == v.first.second.first.nums;
    assert NamesNums(r) == v.first.second.second.nums;
  }

  lemma RequestWhatBack(maxNote: nat, v: Value)
    requires IsRequest(maxNote, v)
    ensures RequestValue(RequestOf(maxNote, v)).second == v.second && NoteFits(maxNote, RequestOf(maxNote, v))
  {
    hide ConfigOf;
    var r := RequestOf(maxNote, v);
    ConfigBack(v.second.first.second);
    assert ProofsNums(r) == v.second.first.first.nums;
    assert TailNums(r) == v.second.second.first.nums;
  }

  // ---------------------------------------------------------------- outcomes

  function OutcomeHeadNums(o: WireOutcome): seq<nat> {
    [o.status.reason, o.status.detail, OpCode(o.op), o.sequence, FlagCode(o.applied), FlagCode(o.duplicate),
     FlagCode(o.decided)]
  }

  function OutcomeTailNums(o: WireOutcome): seq<nat> { [o.stateDigest.lo, o.stateDigest.hi, o.ambiguousPending] }

  function OutcomeValue(o: WireOutcome): Value {
    Pair(Pair(Nums(OutcomeHeadNums(o)), Nums(AuthorityNums(o.authority))),
         Pair(Nums(ViewNums(o.view)), Nums(OutcomeTailNums(o))))
  }

  ghost predicate IsOutcome(v: Value) {
    && v.Pair? && v.first.Pair? && v.second.Pair?
    && Fits(OUTCOME_HEAD, v.first.first) && Fits(AUTHORITY, v.first.second)
    && Fits(VIEW, v.second.first) && Fits(OUTCOME_TAIL, v.second.second)
  }

  lemma OutcomeParts(v: Value)
    ensures Fits(OUTCOME, v) <==> IsOutcome(v)
  {
    PairParts(OUTCOME_HEAD, AUTHORITY, VIEW, OUTCOME_TAIL, v);
  }

  function OutcomeOf(v: Value): WireOutcome
    requires IsOutcome(v)
  {
    var head, tail := v.first.first.nums, v.second.second.nums;
    CreditOutcome(Status(head[0], head[1]), OpOf(head[2]), head[3], head[4] == 1, head[5] == 1, head[6] == 1,
                  AuthorityOf(v.first.second), ViewFrom(v.second.first), Digest128(tail[0], tail[1]), tail[2])
  }

  /** Within the source's field widths, with a view whose `quarantined` mirrors `stale` as every computed view's does.
      */
  predicate OutcomeFits(o: WireOutcome) {
    o.status.detail < TWO64 && o.ambiguousPending < TWO64 && o.view.quarantined == o.view.stale
  }

  lemma OutcomeInverse(o: WireOutcome)
    requires OutcomeFits(o)
    ensures IsOutcome(OutcomeValue(o)) && OutcomeOf(OutcomeValue(o)) == o
  {
    AuthorityInverse(o.authority);
    assert Fits(OUTCOME_HEAD, Nums(OutcomeHeadNums(o)));
    assert Fits(OUTCOME_TAIL, Nums(OutcomeTailNums(o)));
  }

  lemma OutcomeBack(v: Value)
    requires IsOutcome(v)
    ensures OutcomeValue(OutcomeOf(v)) == v && OutcomeFits(OutcomeOf(v))
  {
    hide ViewFrom, Encode;
    var o := OutcomeOf(v);
    ViewBack(v.second.first);
    assert OutcomeHeadNums(o) == v.first.first.nums;
    assert OutcomeTailNums(o) == v.second.second.nums;
  }

  // ---------------------------------------------------------------- account collections

  function RecordNums(r: WireRecord): seq<nat> {
    [r.id, r.publisher, r.boot, StateCode(r.state), r.reconciledEpoch, r.reconciledGeneration, r.proof.lo, r.proof.hi,
     r.producer, r.consumer, r.grant, r.lastSequence, r.committedOps, r.refusedOps, r.fencedAt]
  }

  function RecordOf(v: Value): WireRecord
    requires Fits(INCARNATION, v)
  {
    var n := v.nums;
    IncarnationRecord(n[0], n[1], n[2], StateOf(n[3]), n[4], n[5], Digest128(n[6], n[7]), n[8], n[9], n[10], n[11],
                      n[12], n[13], n[14])
  }

  predicate RecordFits(r: WireRecord) { r.committedOps < TWO64 && r.refusedOps < TWO64 }

  function FenceNums(f: FenceRecord): seq<nat> { [f.incarnation, f.epoch, f.generation, f.cause, f.sequence,
      f.fencedCredit] }

  function FenceFrom(v: Value): FenceRecord
    requires Fits(FENCE, v)
  {
    FenceRecord(v.nums[0], v.nums[1], v.nums[2], v.nums[3], v.nums[4], v.nums[5])
  }

  function NoteNums(n: AmbiguousNote): seq<nat> {
    [n.attempt.lo, n.attempt.hi, OpCode(n.op), n.sequence, n.incarnation, n.journalSequence]
  }

  function NoteFrom(v: Value): AmbiguousNote
    requires Fits(AMBIGUOUS, v)
  {
    var n := v.nums;
    AmbiguousNote(Digest128(n[0], n[1]), OpOf(n[2]), n[3], n[4], n[5])
  }

  function SlotNums(s: (u64, u64)): seq<nat> { [s.0, s.1] }

  function SlotFrom(v: Value): (u64, u64)
    requires Fits(SLOT, v)
  {
    (v.nums[0], v.nums[1])
  }

  function RecordValues(xs: seq<WireRecord>): Value { Items(seq(|xs|,
      i requires 0 <= i < |xs| => Nums(RecordNums(xs[i])))) }
  function FenceValues(xs: seq<FenceRecord>): Value { Items(seq(|xs|,
      i requires 0 <= i < |xs| => Nums(FenceNums(xs[i])))) }
  function NoteValues(xs: seq<AmbiguousNote>): Value { Items(seq(|xs|,
      i requires 0 <= i < |xs| => Nums(NoteNums(xs[i])))) }
  function SlotValues(xs: seq<(u64,
      u64)>): Value { Items(seq(|xs|, i requires 0 <= i < |xs| => Nums(SlotNums(xs[i])))) }

  function RecordsFrom(v: Value): seq<WireRecord>
    requires Fits(Many(INCARNATION, 112), v)
  {
    seq(|v.items|, i requires 0 <= i < |v.items| => RecordOf(v.items[i]))
  }

  function FencesFrom(v: Value): seq<FenceRecord>
    requires Fits(Many(FENCE, 40), v)
  {
    seq(|v.items|, i requires 0 <= i < |v.items| => FenceFrom(v.items[i]))
  }

  function NotesFrom(v: Value): seq<AmbiguousNote>
    requires Fits(Many(AMBIGUOUS, 40), v)
  {
    seq(|v.items|, i requires 0 <= i < |v.items| => NoteFrom(v.items[i]))
  }

  function SlotsFrom(v: Value): seq<(u64, u64)>
    requires Fits(Many(SLOT, 16), v)
  {
    seq(|v.items|, i requires 0 <= i < |v.items| => SlotFrom(v.items[i]))
  }

  lemma RecordsInverse(xs: seq<WireRecord>)
    requires |xs| <= MAX_COLLECTION && forall i :: 0 <= i < |xs| ==> RecordFits(xs[i])
    ensures Fits(Many(INCARNATION, 112), RecordValues(xs)) && RecordsFrom(RecordValues(xs)) == xs
  {
    forall i | 0 <= i < |xs|
      ensures Fits(INCARNATION, Nums(RecordNums(xs[i]))) && RecordOf(Nums(RecordNums(xs[i]))) == xs[i]
    {
    }
  }

  lemma RecordsBack(v: Value)
    requires Fits(Many(INCARNATION, 112), v)
    ensures RecordValues(RecordsFrom(v)) == v
    ensures |RecordsFrom(v)| <= MAX_COLLECTION && forall i :: 0 <= i < |RecordsFrom(v)| ==>
              RecordFits(RecordsFrom(v)[i])
  {
    forall i | 0 <= i < |v.items|
      ensures Nums(RecordNums(RecordOf(v.items[i]))) == v.items[i] && RecordFits(RecordOf(v.items[i]))
    {
    }
  }

  lemma FencesInverse(xs: seq<FenceRecord>)
    requires |xs| <= MAX_COLLECTION
    ensures Fits(Many(FENCE, 40), FenceValues(xs)) && FencesFrom(FenceValues(xs)) == xs
  {
    forall i | 0 <= i < |xs| ensures Fits(FENCE, Nums(FenceNums(xs[i]))) && FenceFrom(Nums(FenceNums(xs[i]))) == xs[i] {
    }
  }

  lemma FencesBack(v: Value)
    requires Fits(Many(FENCE, 40), v)
    ensures FenceValues(FencesFrom(v)) == v && |FencesFrom(v)| <= MAX_COLLECTION
  {
    forall i | 0 <= i < |v.items| ensures Nums(FenceNums(FenceFrom(v.items[i]))) == v.items[i] { }
  }

  lemma NotesInverse(xs: seq<AmbiguousNote>)
    requires |xs| <= MAX_COLLECTION && forall i :: 0 <= i < |xs| ==> xs[i].journalSequence < TWO64
    ensures Fits(Many(AMBIGUOUS, 40), NoteValues(xs)) && NotesFrom(NoteValues(xs)) == xs
  {
    forall i | 0 <= i < |xs|
      ensures Fits(AMBIGUOUS, Nums(NoteNums(xs[i]))) && NoteFrom(Nums(NoteNums(xs[i]))) == xs[i]
    {
    }
  }

  lemma NotesBack(v: Value)
    requires Fits(Many(AMBIGUOUS, 40), v)
    ensures NoteValues(NotesFrom(v)) == v
    ensures |NotesFrom(v)| <= MAX_COLLECTION && forall i :: 0 <= i < |NotesFrom(v)| ==>
              NotesFrom(v)[i].journalSequence < TWO64
  {
    forall i | 0 <= i < |v.items|
      ensures Nums(NoteNums(NoteFrom(v.items[i]))) == v.items[i] && NoteFrom(v.items[i]).journalSequence < TWO64
    {
    }
  }

  lemma SlotsInverse(xs: seq<(u64, u64)>)
    requires |xs| <= MAX_COLLECTION
    ensures Fits(Many(SLOT, 16), SlotValues(xs)) && SlotsFrom(SlotValues(xs)) == xs
  {
    forall i | 0 <= i < |xs| ensures Fits(SLOT, Nums(SlotNums(xs[i]))) && SlotFrom(Nums(SlotNums(xs[i]))) == xs[i] {
    }
  }

  lemma SlotsBack(v: Value)
    requires Fits(Many(SLOT, 16), v)
    ensures SlotValues(SlotsFrom(v)) == v && |SlotsFrom(v)| <= MAX_COLLECTION
  {
    forall i | 0 <= i < |v.items| ensures Nums(SlotNums(SlotFrom(v.items[i]))) == v.items[i] { }
  }

  // ---------------------------------------------------------------- accounts

  function EraNums(d: WireAccount): seq<nat> { [d.epoch, d.generation, d.capacity] }

  function TotalsNums(t: CreditTotals): seq<nat> { [t.issued, t.consumed, t.returned, t.stale, t.spent,
      t.protectedCredits] }

  function LatchNums(d: WireAccount): seq<nat> { [FlagCode(d.hardExhausted), d.exhaustionCause, d.stateDigest.lo,
      d.stateDigest.hi] }

  function LedgerValue(d: WireAccount): Value {
    Pair(Pair(Nums(ConfigNums(d.config)), Nums(EraNums(d))), Pair(Nums(TotalsNums(d.totals)), Nums(LatchNums(d))))
  }

  function SlotsValue(d: WireAccount): Value {
    Pair(NoteValues(d.ambiguous), Pair(Nums([d.committedAttempts, d.refusedAttempts]), SlotValues(d.attemptWindow)))
  }

  function AccountValue(d: WireAccount): Value {
    Pair(LedgerValue(d), Pair(Pair(RecordValues(d.incarnations), FenceValues(d.fences)), SlotsValue(d)))
  }

  ghost predicate IsAccount(v: Value) {
    && v.Pair? && v.first.Pair? && v.second.Pair?
    && v.first.first.Pair? && Fits(CONFIG, v.first.first.first) && Fits(ERA, v.first.first.second)
    && v.first.second.Pair? && Fits(TOTALS, v.first.second.first) && Fits(LATCH, v.first.second.second)
    && v.second.first.Pair? && Fits(Many(INCARNATION, 112), v.second.first.first)
    && Fits(Many(FENCE, 40), v.second.first.second)
    && v.second.second.Pair? && Fits(Many(AMBIGUOUS, 40), v.second.second.first) && v.second.second.second.Pair?
    && Fits(COUNTERS, v.second.second.second.first) && Fits(Many(SLOT, 16), v.second.second.second.second)
  }

  lemma SlotsParts(v: Value)
    ensures Fits(ACCOUNT_SLOTS, v) <==>
            && v.Pair? && Fits(Many(AMBIGUOUS, 40), v.first) && v.second.Pair?
            && Fits(COUNTERS, v.second.first) && Fits(Many(SLOT, 16), v.second.second)
  {
    if v.Pair? {
      assert Fits(Both(COUNTERS, Many(SLOT, 16)), v.second) <==>
             v.second.Pair? && Fits(COUNTERS, v.second.first) && Fits(Many(SLOT, 16), v.second.second);
    }
  }

  lemma AccountParts(v: Value)
    ensures Fits(ACCOUNT, v) <==> IsAccount(v)
  {
    if v.Pair? {
      PairParts(CONFIG, ERA, TOTALS, LATCH, v.first);
      assert Fits(ACCOUNT, v) <==> Fits(ACCOUNT_LEDGER, v.first) && Fits(Both(ACCOUNT_PEOPLE, ACCOUNT_SLOTS), v.second);
      if v.second.Pair? {
        SlotsParts(v.second.second);
        assert Fits(Both(ACCOUNT_PEOPLE, ACCOUNT_SLOTS), v.second) <==>
               Fits(ACCOUNT_PEOPLE, v.second.first) && Fits(ACCOUNT_SLOTS, v.second.second);
      }
    }
  }

  function TotalsFrom(v: Value): CreditTotals
    requires Fits(TOTALS, v)
  {
    CreditTotals(v.nums[0], v.nums[1], v.nums[2], v.nums[3], v.nums[4], v.nums[5])
  }

  function AccountOf(v: Value): WireAccount
    requires IsAccount(v)
  {
    var era, latch, counters :=
      v.first.first.second.nums, v.first.second.second.nums, v.second.second.second.first.nums;
    DurableAccount(
      ConfigOf(v.first.first.first), era[0], era[1], era[2], TotalsFrom(v.first.second.first),
      latch[0] == 1, latch[1], Digest128(latch[2],
                                         latch[3]), RecordsFrom(v.second.first.first),
                                         FencesFrom(v.second.first.second),
      NotesFrom(v.second.second.first), counters[0], counters[1], SlotsFrom(v.second.second.second.second))
  }

  /** Within the source's field widths, with collections the decoder admits. */
  ghost predicate AccountFits(d: WireAccount) {
    && d.committedAttempts < TWO64 && d.refusedAttempts < TWO64
    && |d.incarnations| <= MAX_COLLECTION && |d.fences| <= MAX_COLLECTION
    && |d.ambiguous| <= MAX_COLLECTION && |d.attemptWindow| <= MAX_COLLECTION
    && (forall i :: 0 <= i < |d.incarnations| ==> RecordFits(d.incarnations[i]))
    && (forall i :: 0 <= i < |d.ambiguous| ==> d.ambiguous[i].journalSequence < TWO64)
  }

  lemma AccountInverse(d: WireAccount)
    requires AccountFits(d)
    ensures IsAccount(AccountValue(d)) && AccountOf(AccountValue(d)) == d
  {
    ConfigInverse(d.config);
    RecordsInverse(d.incarnations);
    FencesInverse(d.fences);
    NotesInverse(d.ambiguous);
    SlotsInverse(d.attemptWindow);
  }

  lemma AccountBack(v: Value)
    requires IsAccount(v)
    ensures AccountValue(AccountOf(v)) == v && AccountFits(AccountOf(v))
  {
    LedgerBack(v);
    CollectionsBack(v);
  }

  lemma LedgerBack(v: Value)
    requires IsAccount(v)
    ensures LedgerValue(AccountOf(v)) == v.first
  {
    hide ConfigNums, ConfigOf, RecordsFrom, NotesFrom, SlotsFrom;
    var d := AccountOf(v);
    ConfigBack(v.first.first.first);
    assert EraNums(d) == v.first.first.second.nums;
    assert TotalsNums(d.totals) == v.first.second.first.nums;
    assert LatchNums(d) == v.first.second.second.nums;
  }

  lemma CollectionsBack(v: Value)
    requires IsAccount(v)
    ensures AccountValue(AccountOf(v)).second == v.second && AccountFits(AccountOf(v))
  {
    var d := AccountOf(v);
    RecordsBack(v.second.first.first);
    FencesBack(v.second.first.second);
    NotesBack(v.second.second.first);
    SlotsBack(v.second.second.second.second);
    assert [d.committedAttempts, d.refusedAttempts] == v.second.second.second.first.nums;
  }

  // ---------------------------------------------------------------- sizes

  lemma {:induction false} RowSizeMost(cols: seq<Col>)
    requires forall i :: 0 <= i < |cols| ==> cols[i].width <= 8
    ensures RowSize(cols) <= 8 * |cols|
  {
    if cols != [] { RowSizeMost(cols[1..]); }
  }

  lemma {:induction false} RowSizeConcat(x: seq<Col>, y: seq<Col>)
    ensures RowSize(x + y) == RowSize(x) + RowSize(y)
  {
    if x == [] {
      assert x + y == y;
    } else {
      RowSizeConcat(x[1..], y);
      assert (x + y)[1..] == x[1..] + y;
    }
  }

  function Words(n: nat): seq<Col> { seq(n, i => WORD) }

  lemma {:induction false} WordsSize(n: nat)
    ensures RowSize(Words(n)) == 8 * n
  {
    if n > 0 {
      WordsSize(n - 1);
      assert Words(n)[1..] == Words(n - 1);
    }
  }

  /** A row of `n` words, one narrow column, and `m` words. */
  lemma RowSizeAround(cols: seq<Col>, n: nat, c: Col, m: nat)
    requires cols == Words(n) + [c] + Words(m)
    ensures RowSize(cols) == 8 * n + c.width + 8 * m
  {
    RowSizeConcat(Words(n) + [c], Words(m));
    RowSizeConcat(Words(n), [c]);
    WordsSize(n);
    WordsSize(m);
    assert RowSize([c]) == c.width + RowSize([c][1..]);
  }

  /** The budgets the decoder demands per item are at most what an item takes (src/record.cpp:238-280). */
  lemma Budgets()
    ensures RowSize(INCARNATION.cols) == 113 && RowSize(FENCE.cols) == 42 && RowSize(AMBIGUOUS.cols) == 41
    ensures RowSize(SLOT.cols) == 16
  {
    assert INCARNATION.cols == Words(3) + [STANDING] + Words(11);
    RowSizeAround(INCARNATION.cols, 3, STANDING, 11);
    assert FENCE.cols == Words(3) + [REASON] + Words(2);
    RowSizeAround(FENCE.cols, 3, REASON, 2);
    assert AMBIGUOUS.cols == Words(2) + [OP] + Words(3);
    RowSizeAround(AMBIGUOUS.cols, 2, OP, 3);
    assert SLOT.cols == Words(2);
    WordsSize(2);
  }
}
