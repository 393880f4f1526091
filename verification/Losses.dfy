/** Runs that lose something.

    A refused Issue that newly binds its producer (src/engine.cpp:1130-1158 against src/engine.cpp:738-742): the live
    account keeps the binding, replay does not recreate it, and the digests differ. A decided request with a note over
    4096 bytes (src/engine.cpp:873 against src/wire.cpp:212): the encoder drops the note, and the intent does not decode.
    A failed era advance, whose rollback leaves bystanders demoted. An automatic snapshot, which forgets a slot. */
module Losses {
  import opened Types
  import opened Digests
  import opened Ledger
  import opened Windows
  import opened Engine
  import opened Recovery
  import opened LiveReplay
  import opened EngineInvariant
  import opened Snapshots
  import opened Sessions
  import opened Decisions

  const CONFIG: AccountConfig := AccountConfig(1, 1, 1, 1, 1, 1, Abstract, CreditPolicy(1, 2, true, true, false))

  /** A request on account 1 in its first era, by the incarnation of the given publisher. */
  function Ask(boot: Boot, publisher: u64, attempt: u64, op: OpKind, sequence: u64): Request {
    var presenter := Incarnation(publisher, 1, boot.idOf(publisher, 1));
    var vector := AuthorityVector(1, 1, 1, 1, boot.idOf(publisher, 1));
    CreditRequest(Digest128(attempt, 0), op, sequence, vector, presenter, 1, 0, 0, 0, 0, 0, 0,
                  OfProof(boot.nonce, presenter, vector), ZERO, CONFIG, Undecided, OK, [])
  }

  /** Open an account of capacity 1. */
  function OpenIt(boot: Boot): Request { Ask(boot, 1, 1, OpKind.Open, 1) }

  lemma OpenPasses(boot: Boot)
    requires Clamped(boot.limits) && boot.idOf(1, 1) != 0
    ensures Structural(boot, OpenIt(boot)).None? && OpenRefusal(boot, map[], OpenIt(boot)).None?
  {}

  /** The first call of a session, when it is an Open that passes its checks. */
  lemma OpenCommits(boot: Boot, r: Request, d: Decision)
    requires r.op.Open? && Structural(boot, r).None? && OpenRefusal(boot, map[], r).None?
    requires d == Decide(boot, Fresh().state, r)
    ensures d.Commit? && d.outcome.applied
    ensures var w := Act(boot, Fresh(), Call(r));
            Up(w.state) && w.state.accounts ==
              map[r.authority.account := Settled(boot.limits, Opened(boot.limits, r), r, d.outcome)]
  {
    hide Structural, OpenRefusal, Opened, Settled, DecideOn, ViewOf, AccountDigest;
  }

  /** The window remembers nothing but these. */
  ghost predicate HoldsOnly(w: Window, keys: set<Key>, attempts: set<Digest128>) {
    && 0 < w.limit && |w.order| <= w.limit
    && (forall k :: k in w.byKey ==> k in keys) && (forall id :: id in w.byAttempt ==> id in attempts)
  }

  lemma HoldsOneMore(w: Window, e: Entry, keys: set<Key>, attempts: set<Digest128>)
    requires HoldsOnly(w, keys, attempts)
    ensures HoldsOnly(Insert(w, e), keys + {e.key}, attempts + {e.attempt})
  {
    InsertCases(w, e);
    InsertOrder(w, e);
  }

  /** A new attempt at the slot after the watermark is next. */
  lemma NextSlot(a: AccountState, r: Request, keys: set<Key>, attempts: set<Digest128>)
    requires HoldsOnly(a.window, keys, attempts) && Key(r.authority.incarnation, r.sequence) !in keys
    requires r.attempt !in attempts
    requires r.sequence == Watermark(a, r.authority.incarnation) + 1
    ensures Placement(a, r).Next?
  {}

  /** The account as the Open leaves it. */
  ghost predicate JustOpened(boot: Boot, a: AccountState) {
    && a.config == CONFIG && a.epoch == 1 && a.generation == 1 && a.capacity == 1 && a.totals == NO_TOTALS
    && !a.hardExhausted
    && a.incarnations == map[boot.idOf(1, 1) := OpenerRecord(OpenIt(boot)).(lastSequence := 1)] && a.fences == []
    && HoldsOnly(a.window, {Key(boot.idOf(1, 1), 1)}, {Digest128(1, 0)})
  }

  lemma OpenedAccount(boot: Boot, o: Outcome)
    requires Clamped(boot.limits) && o.applied
    ensures JustOpened(boot, Settled(boot.limits, Opened(boot.limits, OpenIt(boot)), OpenIt(boot), o))
  {
    HoldsOneMore(EmptyWindow(boot.limits.maxWindow), EntryOf(OpenIt(boot), o), {}, {});
  }

  lemma ShortSessions(boot: Boot, first: Request, second: Request)
    ensures Session(boot, [Call(first)]) && Lossless(boot, []) && RunOf(boot, []) == Fresh()
    ensures Session(boot, [Call(first), Call(second)]) && RunOf(boot, [Call(first)]) == Act(boot, Fresh(), Call(first))
    ensures RunOf(boot, [Call(first), Call(second)]) == Act(boot, RunOf(boot, [Call(first)]), Call(second))
    ensures Lossless(boot, [Call(first), Call(second)]) ==> !Loses(boot, RunOf(boot, [Call(first)]), Call(second))
  {
    hide Act, Loses, CapturesAll;
    var one, two := [Call(first)], [Call(first), Call(second)];
    assert one[..0] == [] && two[..1] == one;
    assert Session(boot, []) && RunOf(boot, []) == Fresh();
    assert Session(boot, one);
  }

  // ---------------------------------------------------------------- a lost binding

  /** Ask for 2 credits in the name of producer 7. */
  function OverIssue(boot: Boot): Request { Ask(boot, 1, 2, OpKind.Issue, 2).(producer := 7, count := 2) }

  /** An admitted Issue is decided, one way or the other. */
  lemma IssueDecides(boot: Boot, st: EngineState, r: Request)
    requires Up(st) && Structural(boot, r).None? && r.op.Issue? && r.authority.account in st.accounts
    requires var a := st.accounts[r.authority.account];
             StandingRefusal(boot, a, r).None? && Placement(a, r).Next? && r.authority.incarnation in a.incarnations
    ensures Decide(boot, st, r).Commit?
  {
    hide Structural, StandingRefusal, Placement, LedgerVerdict, Bound, Stamped, ControlEffect;
  }

  lemma OverIssueStands(boot: Boot, a: AccountState)
    requires JustOpened(boot, a) && boot.idOf(1, 1) != 0
    ensures var r := OverIssue(boot);
            && Structural(boot, r).None? && StandingRefusal(boot, a, r).None? && Placement(a, r).Next?
            && NewlyBinds(a, r) && IssueRefused(a, r)
  {
    hide Placement;
    NextSlot(a, OverIssue(boot), {Key(boot.idOf(1, 1), 1)}, {Digest128(1, 0)});
  }

  /** In every configuration there is a two-call session whose log recovery refuses. */
  lemma UnrecoverableSession(boot: Boot) returns (actions: seq<Action>)
    requires FencesFit(boot.limits) && boot.idOf(1, 1) != 0
    ensures Session(boot, actions) && CallsOnly(actions) && |actions| == 2
    ensures Recover(boot.limits, RunOf(boot, actions).disk).Bad?
  {
    hide Recover, Decide, Structural, OpenRefusal, StandingRefusal, Placement, NewlyBinds, IssueRefused, Act, Settled;
    hide JustOpened;
    var open, issue := OpenIt(boot), OverIssue(boot);
    actions := [Call(open), Call(issue)];
    ShortSessions(boot, open, issue);
    OpenPasses(boot);
    var d := Decide(boot, Fresh().state, open);
    OpenCommits(boot, open, d);
    OpenedAccount(boot, d.outcome);
    var w := Act(boot, Fresh(), Call(open));
    OverIssueStands(boot, w.state.accounts[1]);
    assert NewlyBinds(w.state.accounts[1], issue) ==> issue.authority.incarnation in w.state.accounts[1].incarnations;
    IssueDecides(boot, w.state, issue);
    RecoversIffLossless(boot, actions);
  }

  // ---------------------------------------------------------------- a dropped note

  /** Open with a note the engine admits and the encoder drops. */
  function LongOpen(boot: Boot): Request { OpenIt(boot).(note := seq(ENCODED_NOTE + 1, i => 0)) }

  /** Whatever was decided with a note over the encoder's bound, on a disk that replayed, is not recovered. */
  lemma DroppedNoteUnrecoverable(boot: Boot, w: World, r: Request, exact: bool)
    requires Synced(boot.limits, w.state, w.disk, exact) && Decide(boot, w.state, r).Commit? && |r.note| > ENCODED_NOTE
    ensures Recover(boot.limits, Act(boot, w, Call(r)).disk) == Bad(Corrupt(102))
  {
    hide Decide, Replay, Mirrors;
    var d := Decide(boot, w.state, r);
    CallCommits(boot, w, r, d);
    DroppedNote(boot.limits, w.disk, w.state, r);
    BadStaysBad(boot.limits, Appended(w.disk, [IntentFor(w.state, r)]), [CommitFor(w.state, r, d.outcome, d.after)]);
    AppendTwice(w.disk, IntentFor(w.state, r), CommitFor(w.state, r, d.outcome, d.after));
  }

  /** In every configuration that admits a longer note, one accepted call makes the log unrecoverable. */
  lemma UnreadableSession(boot: Boot) returns (actions: seq<Action>)
    requires FencesFit(boot.limits) && boot.idOf(1, 1) != 0 && ENCODED_NOTE < boot.limits.maxNote
    ensures Session(boot, actions) && CallsOnly(actions) && |actions| == 1
    ensures Recover(boot.limits, RunOf(boot, actions).disk) == Bad(Corrupt(102))
  {
    hide Decide, Recover, Synced, LiveOk, Structural, OpenRefusal, Act;
    var r := LongOpen(boot);
    actions := [Call(r)];
    ShortSessions(boot, r, r);
    LongOpenPasses(boot);
    OpenCommits(boot, r, Decide(boot, Fresh().state, r));
    SessionSynced(boot, []);
    DroppedNoteUnrecoverable(boot, Fresh(), r, true);
  }

  lemma LongOpenPasses(boot: Boot)
    requires Clamped(boot.limits) && boot.idOf(1, 1) != 0 && ENCODED_NOTE < boot.limits.maxNote
    ensures Structural(boot, LongOpen(boot)).None? && OpenRefusal(boot, map[], LongOpen(boot)).None?
  {}

  // ---------------------------------------------------------------- an inexact rollback

  /** A boot whose first incarnation is the operator, with room for a second one. */
  predicate TwoPublishers(boot: Boot) {
    && FencesFit(boot.limits) && 2 <= boot.limits.maxIncarnations && boot.operatorId == boot.idOf(1, 1)
    && boot.idOf(1, 1) != 0 && boot.idOf(2, 1) != 0 && boot.idOf(1, 1) != boot.idOf(2, 1)
  }

  /** The second publisher reconciles; then the operator advances the epoch. */
  function JoinIt(boot: Boot): Request { Ask(boot, 2, 2, OpKind.Reconcile, 1) }

  function AdvanceIt(boot: Boot): Request { Ask(boot, 1, 3, OpKind.AdvanceEpoch, 2) }

  /** The opener and the second publisher are both live, and slot 2 of the opener is next. */
  ghost predicate BothLive(boot: Boot, a: AccountState) {
    && a.config == CONFIG && a.epoch == 1 && a.generation == 1 && a.capacity == 1 && a.totals == NO_TOTALS
    && boot.idOf(1, 1) in a.incarnations && IsLive(a.incarnations[boot.idOf(1, 1)], 1, 1)
    && Watermark(a, boot.idOf(1, 1)) == 1
    && boot.idOf(2, 1) in a.incarnations && IsLive(a.incarnations[boot.idOf(2, 1)], 1, 1)
    && HoldsOnly(a.window, {Key(boot.idOf(1, 1), 1), Key(boot.idOf(2, 1), 1)}, {Digest128(1, 0), Digest128(2, 0)})
  }

  /** A verified, admitted Reconcile is applied as its effect says. */
  lemma ReconcileDecides(boot: Boot, st: EngineState, r: Request, d: Decision)
    requires Up(st) && Structural(boot, r).None? && r.op.Reconcile? && r.authority.account in st.accounts
    requires d == Decide(boot, st, r)
    requires var a := st.accounts[r.authority.account];
             StandingRefusal(boot, a, r).None? && Placement(a, r).Next? && Verified(boot, r)
    ensures d.Commit? && d.outcome.applied
    ensures var e := ReconcileEffect(boot, st.accounts[r.authority.account], r);
            e.Changed? && d.after == CountCommitted(e.account, r.authority.incarnation)
  {
    hide Structural, StandingRefusal, Placement, ControlEffect, ViewOf, AccountDigest, LedgerEffect, CountCommitted;
  }

  lemma JoinStands(boot: Boot, a: AccountState)
    requires TwoPublishers(boot) && JustOpened(boot, a)
    ensures var r := JoinIt(boot);
            Structural(boot, r).None? && StandingRefusal(boot, a, r).None? && Placement(a, r).Next? && Verified(boot, r)
  {
    hide Placement;
    NextSlot(a, JoinIt(boot), {Key(boot.idOf(1, 1), 1)}, {Digest128(1, 0)});
  }

  lemma JoinedAccount(boot: Boot, a: AccountState, o: Outcome)
    requires TwoPublishers(boot) && JustOpened(boot, a) && o.applied
    requires ReconcileEffect(boot, a, JoinIt(boot)).Changed?
    ensures var after := CountCommitted(ReconcileEffect(boot, a, JoinIt(boot)).account, boot.idOf(2, 1));
            BothLive(boot, Settled(boot.limits, after, JoinIt(boot), o))
  {
    HoldsOneMore(a.window, EntryOf(JoinIt(boot), o), {Key(boot.idOf(1, 1), 1)}, {Digest128(1, 0)});
  }

  /** The admitted advance of a live operator is staged. */
  lemma AdvanceStands(boot: Boot, a: AccountState, r: Request)
    requires TwoPublishers(boot) && BothLive(boot, a) && r == AdvanceIt(boot)
    ensures Structural(boot, r).None? && StandingRefusal(boot, a, r).None? && Placement(a, r).Next?
    ensures AdvanceEffect(a, r).Changed?
  {
    hide AdvanceEffect, StandingRefusal, Placement;
    OperatorAdvances(boot, a, r);
    NextSlot(a, r, {Key(boot.idOf(1, 1), 1), Key(boot.idOf(2, 1), 1)}, {Digest128(1, 0), Digest128(2, 0)});
  }

  lemma OperatorAdvances(boot: Boot, a: AccountState, r: Request)
    requires r.op.AdvanceEpoch? && r.authority.domain == a.config.domain && r.authority.incarnation == boot.operatorId
    requires r.authority.epoch == a.epoch == 1 && r.authority.generation == a.generation == 1 && a.totals == NO_TOTALS
    requires boot.operatorId in a.incarnations && IsLive(a.incarnations[boot.operatorId], a.epoch, a.generation)
    ensures StandingRefusal(boot, a, r).None? && AdvanceEffect(a, r).Changed?
  {
  }

  /** An admitted era advance that cannot be committed leaves the account `Fallback` says. */
  lemma FailedAdvance(boot: Boot, st: EngineState, disk: Disk, r: Request, io: Io)
    requires Up(st) && Structural(boot, r).None? && r.op.AdvanceEpoch? && r.authority.account in st.accounts
    requires r.expectedState == ZERO
    requires var a := st.accounts[r.authority.account];
             StandingRefusal(boot, a, r).None? && Placement(a, r).Next? && AdvanceEffect(a, r).Changed?
    requires io.intent.Written? && io.commit.Failed? && !io.commit.present
    ensures var f, id := Apply(boot, st, disk, r, io), r.authority.account;
            && !f.outcome.decided && f.disk == Appended(disk, [IntentFor(st, r)])
            && f.state.accounts == st.accounts[id := Fallback(st.accounts[id], r)]
  {
    hide AdvanceEffect, StandingRefusal, Placement, Structural, Fallback, CountCommitted, Stamped;
    assert Decide(boot, st, r) == DecideOn(boot, st.accounts[r.authority.account], r);
  }

  /** Open by the operator, a second publisher reconciles, the operator's epoch advance cannot be committed: nothing of
      the advance is durable, and yet the second publisher is no longer live. */
  lemma InexactRollback(boot: Boot, detail: nat) returns (actions: seq<Action>)
    requires TwoPublishers(boot)
    ensures Session(boot, actions) && CallsOnly(actions)
    ensures var w := RunOf(boot, actions);
            var f := Apply(boot, w.state, w.disk, AdvanceIt(boot), Io(Written, Failed(IO_ERROR, detail, false)));
            var second := boot.idOf(2, 1);
            && Up(w.state) && 1 in w.state.accounts && second in w.state.accounts[1].incarnations
            && IsLive(w.state.accounts[1].incarnations[second], 1, 1)
            && !f.outcome.decided && f.disk == Appended(w.disk, [IntentFor(w.state, AdvanceIt(boot))])
            && 1 in f.state.accounts && second in f.state.accounts[1].incarnations
            && f.state.accounts[1].incarnations[second].state == Unknown
  {
    hide Apply, Decide, Act, Structural, OpenRefusal, StandingRefusal, Placement, Settled, JustOpened, AdvanceEffect;
    hide ReconcileEffect, CountCommitted, Session, RunOf;
    var open, join, advance := OpenIt(boot), JoinIt(boot), AdvanceIt(boot);
    actions := [Call(open), Call(join)];
    ShortSessions(boot, open, join);
    OpenPasses(boot);
    var d := Decide(boot, Fresh().state, open);
    OpenCommits(boot, open, d);
    OpenedAccount(boot, d.outcome);
    var one, w := Act(boot, Fresh(), Call(open)), RunOf(boot, actions);
    var e := Decide(boot, one.state, join);
    JoinStands(boot, one.state.accounts[1]);
    ReconcileDecides(boot, one.state, join, e);
    CallCommits(boot, one, join, e);
    JoinedAccount(boot, one.state.accounts[1], e.outcome);
    AdvanceStands(boot, w.state.accounts[1], advance);
    FailedAdvance(boot, w.state, w.disk, advance, Io(Written, Failed(IO_ERROR, detail, false)));
  }

  // ---------------------------------------------------------------- a slot forgotten by an automatic snapshot

  /** The engine at the point where a commit triggers the automatic snapshot: the decision is in the account, but its
      slot is not published yet (src/engine.cpp:1419-1425 before src/engine.cpp:1479-1493). */
  function Unpublished(st: EngineState, r: Request, d: Decision): EngineState
    requires d.Commit?
  {
    var commit := CommitFor(st, r, d.outcome, d.after);
    st.(accounts := st.accounts[r.authority.account := d.after], chain := commit.chain, next := st.next + 2)
  }

  lemma AfterRestorable(limits: Limits, a: AccountState, r: Request, o: Outcome)
    requires AccountOk(limits, Settled(limits, a, r, o)) && Sized(limits, a) && a.ambiguous == []
    ensures Restorable(limits, a)
  {
    hide Closed, Insert, Resolved;
    var s := Settled(limits, a, r, o);
    forall k | k in a.incarnations ensures a.incarnations[k].id == k {
      assert RecordOk(k, s.incarnations[k], s.epoch, s.generation, s.fences);
    }
  }

  /** Before it is published, a decision can be restored from a snapshot, and has moved no watermark. */
  lemma UnpublishedRestorable(boot: Boot, w: World, r: Request, d: Decision)
    requires FencesFit(boot.limits) && LiveOk(boot.limits, w) && d == Decide(boot, w.state, r) && d.Commit?
    ensures AllRestorable(boot.limits, Unpublished(w.state, r, d).accounts)
    ensures Watermark(d.after, r.authority.incarnation) == r.sequence - 1
  {
    hide Decide, DecideOn, AccountOk, Restorable, Settled, StandingRefusal, Placement, ControlEffect, DataEffect;
    CapturableRestores(boot.limits, w.state);
    DecisionKeeps(boot, w.state, r);
    CommitForm(boot, w.state, r, d);
    if !r.op.Open? {
      var a := w.state.accounts[r.authority.account];
      DecisionKeepsWindow(boot, a, r);
      CommitIsAdmitted(boot, a, r);
      EffectKeepsWatermarks(boot, a, r, EffectOf(boot, a, r), r.authority.incarnation);
    }
    AfterRestorable(boot.limits, d.after, r, d.outcome);
  }

  lemma RecoveredAccount(limits: Limits, disk: Disk, accounts: Accounts, chain: Digest, next: nat, exact: bool,
      acc: u64, id: u64)
    requires RecoversTo(limits, disk, accounts, chain, next, exact) && acc in accounts
    ensures Recover(limits, disk).Good?
    ensures var c := Recover(limits, disk).value;
            && acc in c.accounts && c.accounts[acc].totals == accounts[acc].totals
            && Watermark(c.accounts[acc], id) == Watermark(accounts[acc], id)
  {
    hide Recover;
    assert Recovers(accounts[acc], Recover(limits, disk).value.accounts[acc], exact);
  }

  /** Whenever a commit triggers the automatic snapshot, a restart after any of the snapshot's writes keeps the credit
      the attempt moved and forgets its slot: the caller's watermark is back below it, and the slot is next again. */
  lemma AutomaticSnapshotForgets(boot: Boot, w: World, r: Request, d: Decision, ds: DurableState<Digest>, cut: nat,
      exact: bool)
    requires FencesFit(boot.limits) && LiveOk(boot.limits, w) && d == Decide(boot, w.state, r) && d.Commit?
    requires CapturesAll(Unpublished(w.state, r, d), ds) && StateReadable(ds) && 1 <= cut <= 3
    requires cut == 1 ==> WorldOk(boot.limits, w, exact) && !Loses(boot, w, Call(r))
    ensures var disk := SnapshotCut(Unpublished(w.state, r, d), Appended(w.disk, PairOf(w.state, r, d)), ds, cut);
            var c, acc := Recover(boot.limits, disk), r.authority.account;
            && c.Good? && acc in c.value.accounts && c.value.accounts[acc].totals == d.after.totals
            && Watermark(c.value.accounts[acc], r.authority.incarnation) == r.sequence - 1
            && Positioned(Watermark(c.value.accounts[acc], r.authority.incarnation), r.sequence).Next?
  {
    hide Decide, CapturesAll, StateReadable, Capturable, AllRestorable, Restarts, SnapshotCut, RecoversTo, Recover;
    hide Forfeits, LosesBinding, Replay, Settled, Mirrors;
    var mid, disk := Unpublished(w.state, r, d), Appended(w.disk, PairOf(w.state, r, d));
    BoundedPush(w.disk.log, PairOf(w.state, r, d), w.state.next, mid.next);
    UnpublishedRestorable(boot, w, r, d);
    if cut == 1 {
      LossIsForeseen(boot, w, r, d);
      CallReplays(boot, w, r, exact);
    }
    SnapshotCutReplays(boot.limits, mid, disk, ds, cut);
    RestartsRecover(boot.limits, mid, SnapshotCut(mid, disk, ds, cut));
    RecoveredAccount(boot.limits, SnapshotCut(mid, disk, ds, cut), mid.accounts, mid.chain, mid.next + 1, false,
                     r.authority.account, r.authority.incarnation);
  }

  /** Without it, the same restart remembers the slot. */
  lemma CommitRemembered(boot: Boot, w: World, r: Request, d: Decision, exact: bool)
    requires FencesFit(boot.limits) && WorldOk(boot.limits, w, exact) && !Loses(boot, w, Call(r))
    requires d == Decide(boot, w.state, r) && d.Commit?
    ensures var c, acc := Recover(boot.limits, Act(boot, w, Call(r)).disk), r.authority.account;
            && c.Good? && acc in c.value.accounts && c.value.accounts[acc].totals == d.after.totals
            && Watermark(c.value.accounts[acc], r.authority.incarnation) == r.sequence
  {
    hide Decide, DecideOn, Recover, RecoversTo, Mirrors, Replay, Act, AccountOk, Insert, Resolved, Loses;
    var w' := Act(boot, w, Call(r));
    CallKeepsSynced(boot, w, r, exact);
    CallCommits(boot, w, r, d);
    SyncedRecovers(boot.limits, w'.state, w'.disk, exact);
    RecoveredAccount(boot.limits, w'.disk, w'.state.accounts, w'.state.chain, w'.state.next, exact,
                     r.authority.account, r.authority.incarnation);
    CommitForm(boot, w.state, r, d);
    if !r.op.Open? { SettledWatermarks(boot, w.state.accounts[r.authority.account], r, r.authority.incarnation); }
  }
}
