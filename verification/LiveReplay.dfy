/** Live decisions and their replay agree (src/engine.cpp:509-841 against src/engine.cpp:858-1428).

    `Synced` relates a live engine to its disk: replaying the disk rebuilds the live accounts, chain and next
    sequence. Every fault-free step keeps it, so a crash at any record boundary recovers the live state. */
module LiveReplay {
  import opened Types
  import opened Digests
  import opened Ledger
  import opened Windows
  import opened Engine
  import opened Recovery
  import opened EngineInvariant
  import opened Decisions

  // ---------------------------------------------------------------- the relation

  /** The account `a` as replay holds it: no refusal log, and its own window and ambiguous notes. */
  function As(a: AccountState, window: Window, notes: seq<AmbiguousNote>): AccountState {
    a.(refusals := [], refusalCursor := 0, window := window, ambiguous := notes)
  }

  /** Both windows hold the same slots in the same order, within the limit. */
  predicate SameSlots(v: Window, w: Window) {
    v.order == w.order && v.limit == w.limit && 0 < v.limit && |v.order| <= v.limit
  }

  /** `b` is the replayed form of the live account `a`. `exact` asks for the same window contents too, which
      a snapshot restore gives up. */
  predicate Mirror(a: AccountState, b: AccountState, exact: bool) {
    && b == As(a, b.window, [])
    && a.ambiguous == []
    && SameSlots(a.window, b.window)
    && (exact ==> b.window == a.window)
  }

  ghost predicate Mirrors(live: Accounts, replayed: Accounts, exact: bool) {
    && live.Keys == replayed.Keys
    && forall k :: k in live ==> Mirror(live[k], replayed[k], exact)
  }

  ghost predicate Synced(limits: Limits, st: EngineState, disk: Disk, exact: bool) {
    && st.recovered && !st.failed
    && (disk.snapshot.Some? ==> disk.snapshot.value.sequence < st.next)
    && Replay(limits, disk).Good?
    && var replayed := Replay(limits, disk).value;
       replayed.chain == st.chain && replayed.next == st.next && Mirrors(st.accounts, replayed.accounts, exact)
  }

  // ---------------------------------------------------------------- one decision

  /** The request would write a producer, consumer or grant its incarnation did not have yet. */
  predicate NewlyBinds(a: AccountState, r: Request) {
    && r.op.Issue? && !a.hardExhausted && r.authority.incarnation in a.incarnations
    && Bound(a.incarnations[r.authority.incarnation], r).0 != a.incarnations[r.authority.incarnation]
  }

  /** A refused Issue that newly binds: the live account keeps the binding, replay does not recreate it. */
  predicate LosesBinding(st: EngineState, r: Request, d: Decision) {
    && d.Commit? && !d.outcome.applied
    && r.authority.account in st.accounts && NewlyBinds(st.accounts[r.authority.account], r)
  }

  /** The Issue asks for a binding other than its incarnation's, or for credit the ledger's guard refuses. */
  predicate IssueRefused(a: AccountState, r: Request)
    requires r.authority.incarnation in a.incarnations
  {
    || Bound(a.incarnations[r.authority.incarnation], r).1.Some?
    || !Guard(BucketsOf(a.capacity, a.totals), a.totals, Issued(r.count, a.config.rules.minIssue, a.config.rules.maxIssue))
  }

  /** The same, as a caller can tell before the call. */
  predicate Forfeits(st: EngineState, r: Request) {
    && r.authority.account in st.accounts
    && NewlyBinds(st.accounts[r.authority.account], r) && IssueRefused(st.accounts[r.authority.account], r)
  }

  function Chained(r: Result<AccountState>, request: Request): Result<AccountState> {
    match r
    case Bad(s) => Bad(s)
    case Good(a) => ReplayStanding(a, request)
  }

  lemma DataReplays(boot: Boot, a: AccountState, r: Request, w: Window, notes: seq<AmbiguousNote>)
    requires !IsControl(r.op) && !r.op.Describe? && DataEffect(boot, a, r).Changed?
    ensures Chained(ReplayTransition(As(a, w, notes), r), r) == Good(As(DataEffect(boot, a, r).account, w, notes))
  {
  }

  lemma AdvanceReplays(a: AccountState, r: Request, w: Window, notes: seq<AmbiguousNote>)
    requires AdvancesEra(r.op) && AdvanceEffect(a, r).Changed?
    ensures Chained(ReplayTransition(As(a, w, notes), r), r) == Good(As(AdvanceEffect(a, r).account, w, notes))
  {
    hide Planned, LedgerVerdict, FenceOf;
  }

  lemma ControlReplays(limits: Limits, a: AccountState, r: Request, w: Window, notes: seq<AmbiguousNote>)
    requires IsControl(r.op) && ControlEffect(limits, a, r).Changed?
    ensures Chained(ReplayTransition(As(a, w, notes), r), r) == Good(As(ControlEffect(limits, a, r).account, w, notes))
  {
    match r.op
    case AdvanceEpoch => AdvanceReplays(a, r, w, notes);
    case Rotate => AdvanceReplays(a, r, w, notes);
    case Fence =>
    case _ =>
  }

  /** A declined effect leaves the account alone, except for a refused Issue's new bindings. */
  lemma DeclinedKeeps(boot: Boot, a: AccountState, r: Request, e: Effect)
    requires e == if IsControl(r.op) then ControlEffect(boot.limits, a, r) else DataEffect(boot, a, r)
    requires e.Declined?
    ensures e.account == a <==> !NewlyBinds(a, r)
    ensures e.account == a || (NewlyBinds(a, r) && var id := r.authority.incarnation;
              e.account == a.(incarnations := a.incarnations[id := Bound(a.incarnations[id], r).0]))
  {
    var id := r.authority.incarnation;
    if r.op.Issue? && id in a.incarnations {
      assert a.incarnations[id := a.incarnations[id]] == a.incarnations;
    }
  }

  /** The recorded attempt of a decision rebuilds the decided account. */
  lemma DecisionReplays(boot: Boot, st: EngineState, a: AccountState, r: Request, w: Window, notes: seq<AmbiguousNote>)
    requires DecideOn(boot, a, r).Commit? && !r.op.Open? && !r.op.Describe?
    requires DecideOn(boot, a, r).outcome.applied || !NewlyBinds(a, r)
    ensures var d := DecideOn(boot, a, r);
            && ReplayedOn(As(a, w, notes), AttemptOf(st, r, d.outcome, d.after)) == Good(As(d.after, w, notes))
            && d.outcome.decided && d.outcome.view == ViewOf(d.after)
  {
    hide ControlEffect, DataEffect, StandingRefusal, Placement, ReplayTransition, ReplayStanding, ViewOf, AccountDigest;
    var id := r.authority.incarnation;
    var e := if IsControl(r.op) then ControlEffect(boot.limits, a, r) else DataEffect(boot, a, r);
    var d := DecideOn(boot, a, r);
    assert d == Conclude(a, r, InEra(Blank(r), a), e);
    if e.Changed? {
      if IsControl(r.op) { ControlReplays(boot.limits, a, r, w, notes); } else { DataReplays(boot, a, r, w, notes); }
    } else {
      DeclinedKeeps(boot, a, r, e);
    }
  }

  lemma PublishedAs(limits: Limits, a: AccountState, r: Request, o: Outcome, w: Window, notes: seq<AmbiguousNote>)
    ensures Published(As(a, w, notes), r, o) ==
            As(Settled(limits, a, r, o), Insert(w, EntryOf(r, o)), Resolved(notes, r.authority.incarnation, r.sequence))
    ensures Settled(limits, a, r, o).window == Insert(a.window, EntryOf(r, o))
    ensures a.ambiguous == [] ==> Settled(limits, a, r, o).ambiguous == []
  {}

  /** What `replay_attempt` returns once the account it rebuilds is known: the recorded account, as replay holds it. */
  lemma RebuiltReplays(limits: Limits, noted: EngineState, st: EngineState, r: Request, o: Outcome, after: AccountState,
      w: Window,
      notes: seq<AmbiguousNote>)
    requires Rebuilt(limits, noted.accounts, AttemptOf(st, r, o, after)) == Good(As(after, w, notes)) && o.decided
    requires o.view == ViewOf(after)
    requires Resolved(notes, r.authority.incarnation, r.sequence) == []
    ensures ReplayAttempt(limits, noted, AttemptOf(st, r, o, after)) ==
            Good(noted.(accounts := noted.accounts[r.authority.account := As(Settled(limits, after, r, o),
                Insert(w, EntryOf(r, o)), [])],
                        applied := st.applied, refused := st.refused))
  {
    hide Rebuilt, Settled, Insert, ComputeView;
    assert o.(view := ViewOf(after)) == o;
    PublishedAs(limits, after, r, o, w, notes);
  }

  /** An intent against an account without pending notes leaves exactly its own note. */
  lemma IntentReplays(limits: Limits, a: AccountState, accounts: Accounts, r: Request, sequence: nat, exact: bool)
    requires r.authority.account in accounts && Mirror(a, accounts[r.authority.account], exact)
    ensures MarkedAmbiguous(limits, accounts, r, sequence) ==
            accounts[r.authority.account := As(a, accounts[r.authority.account].window, [NoteOf(r, sequence)])]
  {
    assert [] + [NoteOf(r, sequence)] == [NoteOf(r, sequence)];
  }

  // ---------------------------------------------------------------- one step

  /** The disk after a crash that kept the first `cut` of the records a step was writing. */
  function Cut(disk: Disk, records: seq<JournalRecord>, cut: nat): Disk
    requires cut <= |records|
  {
    Appended(disk, records[..cut])
  }

  /** The live accounts with the intent of `r` pending. */
  function Pending(accounts: Accounts, r: Request, sequence: nat): Accounts {
    if r.authority.account in accounts
    then accounts[r.authority.account := accounts[r.authority.account].(ambiguous := [NoteOf(r, sequence)])]
    else accounts
  }

  /** A decided request passed the engine's own note bound, and an Open is decided only by being applied. */
  lemma DecidedRequest(boot: Boot, st: EngineState, r: Request, d: Decision)
    requires d == Decide(boot, st, r) && d.Commit?
    ensures |r.note| <= boot.limits.maxNote
    ensures (r.op.Open? ==> d.outcome.applied && d.outcome.decided && d.outcome.view == ViewOf(d.after))
  {
    hide DescribeOn, DecideOn, Opened, ViewOf, AccountDigest;
  }

  /** What replaying the attempt of a decision leaves: the live account, with replay's window. */
  ghost predicate Rebuilds(limits: Limits, noted: EngineState, st: EngineState, r: Request, o: Outcome,
      after: AccountState,
      b: AccountState, exact: bool) {
    && ReplayAttempt(limits, noted, AttemptOf(st, r, o, after)) ==
       Good(noted.(accounts := noted.accounts[r.authority.account := b], applied := st.applied, refused := st.refused))
    && Mirror(Settled(limits, after, r, o), b, exact)
  }

  /** Replay of an Open. */
  lemma OpenReplays(limits: Limits, st: EngineState, rep: EngineState, r: Request, o: Outcome, exact: bool)
    requires Clamped(limits) && r.op.Open? && r.authority.account !in rep.accounts
    requires o.applied && o.decided && o.view == ViewOf(Opened(limits, r))
    ensures var after := Opened(limits, r); Rebuilds(limits, rep, st, r, o, after, Settled(limits, after, r, o), exact)
  {
    hide ReplayedOn, ComputeView, AccountDigest, Insert;
    var after := Opened(limits, r);
    assert Rebuilt(limits, rep.accounts, AttemptOf(st, r, o, after)) == Good(As(after, after.window, []));
    RebuiltReplays(limits, rep, st, r, o, after, after.window, []);
    InsertOrder(after.window, EntryOf(r, o));
  }

  /** Replay of a decision on an existing account, after its intent was noted. */
  lemma CommitReplays(boot: Boot, st: EngineState, a: AccountState, rep: EngineState, r: Request, d: Decision,
      exact: bool)
      returns (b: AccountState)
    requires r.authority.account in rep.accounts && Mirror(a, rep.accounts[r.authority.account], exact)
    requires d == DecideOn(boot, a, r) && d.Commit? && !r.op.Open? && !r.op.Describe?
    requires (d.outcome.applied || !NewlyBinds(a, r))
    ensures var noted := rep.(accounts := MarkedAmbiguous(boot.limits, rep.accounts, r, st.next));
            Rebuilds(boot.limits, noted, st, r, d.outcome, d.after, b, exact)
  {
    hide DecideOn, ReplayedOn, ReplayAttempt, Settled, Insert, MarkedAmbiguous, NewlyBinds;
    var w, notes, o := rep.accounts[r.authority.account].window, [NoteOf(r, st.next)], d.outcome;
    var noted := rep.(accounts := MarkedAmbiguous(boot.limits, rep.accounts, r, st.next));
    IntentReplays(boot.limits, a, rep.accounts, r, st.next, exact);
    DecisionReplays(boot, st, a, r, w, notes);
    assert Resolved(notes, r.authority.incarnation, r.sequence) == [];
    RebuiltReplays(boot.limits, noted, st, r, o, d.after, w, notes);
    b := As(Settled(boot.limits, d.after, r, o), Insert(w, EntryOf(r, o)), []);
    DecisionKeepsWindow(boot, a, r);
    PublishedAs(boot.limits, d.after, r, o, w, []);
    InsertOrder(a.window, EntryOf(r, o));
    InsertOrder(w, EntryOf(r, o));
  }

  /** Replaying both records of a fault-free decision mirrors the live step. */
  lemma StepReplays(boot: Boot, st: EngineState, rep: EngineState, r: Request, d: Decision, exact: bool)
    requires Clamped(boot.limits) && st.recovered && !st.failed
    requires rep.chain == st.chain && Mirrors(st.accounts, rep.accounts, exact)
    requires d == Decide(boot, st, r) && d.Commit? && |r.note| <= ENCODED_NOTE && !LosesBinding(st, r, d)
    ensures var noted := rep.(accounts := MarkedAmbiguous(boot.limits, rep.accounts, r, st.next));
            && ReplayRecord(boot.limits, rep, IntentFor(st, r)) == Good(noted)
            && ReplayRecord(boot.limits, noted, CommitFor(st, r, d.outcome, d.after)).Good?
            && var rep' := ReplayRecord(boot.limits, noted, CommitFor(st, r, d.outcome, d.after)).value;
               && rep'.chain == CommitFor(st, r, d.outcome, d.after).chain && rep'.next == st.next + 2
               && Mirrors(st.accounts[r.authority.account := Settled(boot.limits, d.after, r, d.outcome)], rep'.accounts, exact)
  {
    hide Decide, DecideOn, Mirror, NewlyBinds, Settled, RestoredState, ReplayAttempt, Opened, ViewOf, AccountDigest;
    var id := r.authority.account;
    DecidedRequest(boot, st, r, d);
    CommitForm(boot, st, r, d);
    if r.op.Open? {
      OpenReplays(boot.limits, st, rep, r, d.outcome, exact);
    } else {
      var b := CommitReplays(boot, st, st.accounts[id], rep, r, d, exact);
      NotedKeys(boot.limits, st.accounts[id], rep.accounts, r, st.next, b, exact);
    }
  }

  /** Once the account is put back, nothing of the noted intent is left. */
  lemma NotedKeys(limits: Limits, a: AccountState, accounts: Accounts, r: Request, sequence: nat, b: AccountState,
      exact: bool)
    requires r.authority.account in accounts && Mirror(a, accounts[r.authority.account], exact)
    ensures MarkedAmbiguous(limits, accounts, r, sequence)[r.authority.account := b] ==
              accounts[r.authority.account := b]
  {}

  lemma EffectKeepsWindow(boot: Boot, a: AccountState, r: Request, e: Effect)
    requires e == if IsControl(r.op) then ControlEffect(boot.limits, a, r) else DataEffect(boot, a, r)
    ensures (e.Changed? || e.Declined?) ==> e.account.window == a.window && e.account.ambiguous == a.ambiguous
  {
    hide Planned, LedgerVerdict, FenceOf, AccountDigest;
  }

  lemma DecisionKeepsWindow(boot: Boot, a: AccountState, r: Request)
    requires DecideOn(boot, a, r).Commit?
    ensures DecideOn(boot, a, r).after.window == a.window && DecideOn(boot, a, r).after.ambiguous == a.ambiguous
  {
    hide ControlEffect, DataEffect, StandingRefusal, Placement, Stamped, Fallback;
    var e := if IsControl(r.op) then ControlEffect(boot.limits, a, r) else DataEffect(boot, a, r);
    EffectKeepsWindow(boot, a, r, e);
    assert DecideOn(boot, a, r) == Conclude(a, r, InEra(Blank(r), a), e);
  }
}
