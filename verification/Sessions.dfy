/** Whole runs of one boot: crash anywhere, recover the live state.

    A session starts from an empty disk and makes calls of `apply` and explicit snapshots whose durable writes
    succeed; the crash may then strike between any two records of the next step. */
module Sessions {
  import opened Types
  import opened Digests
  import opened Ledger
  import opened Windows
  import opened Engine
  import opened Recovery
  import opened LiveReplay
  import opened EngineInvariant
  import opened Snapshots
  import opened Decisions
  import opened Backups

  datatype World = World(state: EngineState, disk: Disk)

  datatype Action = Call(request: Request) | Checkpoint(state: DurableState<Digest>)

  function Fresh(): World { World(BLANK_ENGINE.(recovered := true), Disk([], None)) }

  function Act(boot: Boot, w: World, action: Action): World {
    match action
    case Call(r) =>
      var applied := Apply(boot, w.state, w.disk, r, ALL_WRITTEN);
      World(applied.state, applied.disk)
    case Checkpoint(ds) =>
      World(w.state.(next := w.state.next + 1, snapshots := w.state.snapshots + 1), SnapshotCut(w.state, w.disk, ds, 3))
  }

  /** A checkpoint writes a snapshot of the engine it is taken of. */
  ghost predicate Possible(w: World, action: Action) {
    action.Checkpoint? ==> CapturesAll(w.state, action.state)
  }

  /** The step writes something replay cannot use: a decided request whose note the encoder drops, a refused Issue
      whose new binding no record carries, or a snapshot with a collection over the decoder's ceiling. */
  predicate Loses(boot: Boot, w: World, action: Action) {
    match action
    case Call(r) => Decide(boot, w.state, r).Commit? && (|r.note| > ENCODED_NOTE || Forfeits(w.state, r))
    case Checkpoint(ds) => !StateReadable(ds)
  }

  ghost function RunOf(boot: Boot, actions: seq<Action>): World
    decreases |actions|
  {
    if actions == [] then Fresh() else Act(boot, RunOf(boot, actions[..|actions| - 1]), actions[|actions| - 1])
  }

  ghost predicate Session(boot: Boot, actions: seq<Action>)
    decreases |actions|
  {
    actions == [] ||
    var init := actions[..|actions| - 1];
    Session(boot, init) && Possible(RunOf(boot, init), actions[|actions| - 1])
  }

  /** Nothing was lost since the last checkpoint, whose file supersedes the log before it. */
  ghost predicate Lossless(boot: Boot, actions: seq<Action>)
    decreases |actions|
  {
    actions == [] ||
    var init, last := actions[..|actions| - 1], actions[|actions| - 1];
    !Loses(boot, RunOf(boot, init), last) && (last.Call? ==> Lossless(boot, init))
  }

  ghost predicate CallsOnly(actions: seq<Action>) {
    forall i :: 0 <= i < |actions| ==> actions[i].Call?
  }

  // ---------------------------------------------------------------- the session invariant

  /** What holds of the live side whatever is lost. */
  ghost predicate LiveOk(limits: Limits, w: World) {
    && w.state.recovered && !w.state.failed
    && Capturable(limits, w.state)
    && Bounded(w.disk.log, w.state.next)
    && (w.disk.snapshot.Some? ==> w.disk.snapshot.value.sequence < w.state.next)
  }

  ghost predicate WorldOk(limits: Limits, w: World, exact: bool) {
    LiveOk(limits, w) && Synced(limits, w.state, w.disk, exact)
  }

  lemma SettledSized(limits: Limits, a: AccountState, r: Request, o: Outcome)
    requires Clamped(limits) && Sized(limits, a) && a.ambiguous == []
    ensures Sized(limits, Settled(limits, a, r, o)) && Settled(limits, a, r, o).ambiguous == []
  {
    InsertOrder(a.window, EntryOf(r, o));
  }

  /** A call that commits, with both writes durable. */
  lemma CallCommits(boot: Boot, w: World, r: Request, d: Decision)
    requires d == Decide(boot, w.state, r) && d.Commit?
    ensures var w' := Act(boot, w, Call(r));
            var intent, commit := IntentFor(w.state, r), CommitFor(w.state, r, d.outcome, d.after);
            && w'.state.accounts == w.state.accounts[r.authority.account := Settled(boot.limits, d.after, r, d.outcome)]
            && w'.state.chain == commit.chain && w'.state.next == w.state.next + 2
            && w'.state.recovered == w.state.recovered && w'.state.failed == w.state.failed
            && w'.disk == Appended(w.disk, [intent, commit])
            && intent.sequence == w.state.next && commit.sequence == w.state.next + 1
  {
    hide Decide, Settled, AttemptOf;
  }

  lemma BoundedPush(log: seq<JournalRecord>, records: seq<JournalRecord>, next: nat, next': nat)
    requires Bounded(log, next) && Bounded(records, next') && next <= next'
    ensures Bounded(log + records, next')
  {}

  lemma PutKeepsLive(limits: Limits, w: World, w': World, id: u64, a: AccountState, records: seq<JournalRecord>)
    requires LiveOk(limits, w) && AccountOk(limits, a) && a.config.account == id && Sized(limits, a)
    requires a.ambiguous == []
    requires w'.state.accounts == w.state.accounts[id := a] && w'.disk == Appended(w.disk, records)
    requires w'.state.recovered && !w'.state.failed && w.state.next <= w'.state.next && Bounded(records, w'.state.next)
    ensures LiveOk(limits, w')
  {
    hide AccountOk;
    BoundedPush(w.disk.log, records, w.state.next, w'.state.next);
  }

  lemma CallKeepsLive(boot: Boot, w: World, r: Request)
    requires FencesFit(boot.limits) && LiveOk(boot.limits, w)
    ensures LiveOk(boot.limits, Act(boot, w, Call(r)))
  {
    hide Decide, DecideOn, Settled, AccountOk;
    var d, w' := Decide(boot, w.state, r), Act(boot, w, Call(r));
    DecisionKeeps(boot, w.state, r);
    if d.Commit? {
      CommitForm(boot, w.state, r, d);
      if !r.op.Open? { DecisionKeepsWindow(boot, w.state.accounts[r.authority.account], r); }
      SettledSized(boot.limits, d.after, r, d.outcome);
      CallCommits(boot, w, r, d);
      SettledConfig(boot.limits, d.after, r, d.outcome);
      PutKeepsLive(boot.limits, w, w', r.authority.account, Settled(boot.limits, d.after, r, d.outcome),
                   PairOf(w.state, r, d));
    }
  }

  lemma CheckpointKeepsLive(limits: Limits, boot: Boot, w: World, ds: DurableState<Digest>)
    requires limits == boot.limits && LiveOk(limits, w)
    ensures LiveOk(limits, Act(boot, w, Checkpoint(ds)))
  {
    hide Apply, SnapshotCut, AccountsOk;
    SnapshotCutFile(w.state, w.disk, ds, 3);
  }

  /** Both records of a decision, replayed onto a synced disk. */
  lemma CallReplays(boot: Boot, w: World, r: Request, exact: bool)
    requires Clamped(boot.limits) && Synced(boot.limits, w.state, w.disk, exact)
    requires Decide(boot, w.state, r).Commit? && |r.note| <= ENCODED_NOTE
    requires !LosesBinding(w.state, r, Decide(boot, w.state, r))
    ensures var d := Decide(boot, w.state, r);
            var intent, commit := IntentFor(w.state, r), CommitFor(w.state, r, d.outcome, d.after);
            var two := Replay(boot.limits, Appended(w.disk, [intent, commit]));
            && two.Good? && two.value.chain == commit.chain && two.value.next == w.state.next + 2
            && Mirrors(w.state.accounts[r.authority.account := Settled(boot.limits, d.after, r, d.outcome)], two.value.accounts, exact)
  {
    hide Decide, Replay, ReplayRecord, Mirrors, Settled, MarkedAmbiguous, LosesBinding;
    var d := Decide(boot, w.state, r);
    var rep := Replay(boot.limits, w.disk).value;
    var intent, commit := IntentFor(w.state, r), CommitFor(w.state, r, d.outcome, d.after);
    StepReplays(boot, w.state, rep, r, d, exact);
    ReplayAppend(boot.limits, w.disk, intent);
    ReplayAppend(boot.limits, Appended(w.disk, [intent]), commit);
    AppendTwice(w.disk, intent, commit);
  }

  /** A binding is lost exactly when the caller could tell that it would be. */
  lemma LossIsForeseen(boot: Boot, w: World, r: Request, d: Decision)
    requires LiveOk(boot.limits, w) && d == Decide(boot, w.state, r) && d.Commit?
    ensures LosesBinding(w.state, r, d) <==> Forfeits(w.state, r)
  {
    hide Decide, DecideOn, StandingRefusal, Placement, IssueEffect, IssueRefused, ControlEffect;
    CommitForm(boot, w.state, r, d);
    if r.authority.account in w.state.accounts && NewlyBinds(w.state.accounts[r.authority.account], r) {
      CommitIsAdmitted(boot, w.state.accounts[r.authority.account], r);
      IssueDeclinedIff(w.state.accounts[r.authority.account], r);
    }
  }

  lemma DecisionReplies(boot: Boot, w: World, r: Request)
    requires FencesFit(boot.limits) && LiveOk(boot.limits, w) && !Decide(boot, w.state, r).Commit?
    ensures Act(boot, w, Call(r)) == w
  {
    hide Decide, AccountOk;
    DecisionKeeps(boot, w.state, r);
  }

  lemma CallKeepsSynced(boot: Boot, w: World, r: Request, exact: bool)
    requires FencesFit(boot.limits) && WorldOk(boot.limits, w, exact) && !Loses(boot, w, Call(r))
    ensures WorldOk(boot.limits, Act(boot, w, Call(r)), exact)
  {
    hide Decide, Replay, Mirrors, Forfeits, LosesBinding, Capturable, Settled;
    CallKeepsLive(boot, w, r);
    var d := Decide(boot, w.state, r);
    if !d.Commit? {
      DecisionReplies(boot, w, r);
    } else {
      LossIsForeseen(boot, w, r, d);
      CallReplays(boot, w, r, exact);
      CallCommits(boot, w, r, d);
    }
  }

  lemma CheckpointKeepsSynced(boot: Boot, w: World, ds: DurableState<Digest>)
    requires FencesFit(boot.limits) && LiveOk(boot.limits, w) && CapturesAll(w.state, ds) && StateReadable(ds)
    ensures WorldOk(boot.limits, Act(boot, w, Checkpoint(ds)), false)
  {
    hide CapturesAll, StateReadable, SnapshotCut, Replay, Mirrors, Apply, AllRestorable, Capturable;
    CheckpointKeepsLive(boot.limits, boot, w, ds);
    CapturableRestores(boot.limits, w.state);
    SnapshotCutReplays(boot.limits, w.state, w.disk, ds, 3);
    SnapshotCutFile(w.state, w.disk, ds, 3);
  }

  /** What holds of the live side over every session. */
  lemma {:induction false} SessionLive(boot: Boot, actions: seq<Action>)
    requires FencesFit(boot.limits) && Session(boot, actions)
    ensures LiveOk(boot.limits, RunOf(boot, actions))
    decreases |actions|
  {
    hide Possible, Act;
    if actions != [] {
      var init, last := actions[..|actions| - 1], actions[|actions| - 1];
      SessionLive(boot, init);
      match last
      case Call(r) => CallKeepsLive(boot, RunOf(boot, init), r);
      case Checkpoint(ds) => CheckpointKeepsLive(boot.limits, boot, RunOf(boot, init), ds);
    }
  }

  lemma FreshSynced(limits: Limits)
    ensures WorldOk(limits, Fresh(), true)
  {}

  /** Over every session the disk replays to the live engine if nothing was lost since the last checkpoint, with the
      live window contents too as long as no snapshot was taken. */
  lemma {:induction false} SessionSynced(boot: Boot, actions: seq<Action>)
    requires FencesFit(boot.limits) && Session(boot, actions) && Lossless(boot, actions)
    ensures WorldOk(boot.limits, RunOf(boot, actions), CallsOnly(actions))
    decreases |actions|
  {
    hide Act, Decide, Forfeits, LiveOk, Synced, CapturesAll, StateReadable;
    if actions == [] {
      FreshSynced(boot.limits);
    } else {
      var init, last := actions[..|actions| - 1], actions[|actions| - 1];
      match last
      case Call(r) =>
        SessionSynced(boot, init);
        CallKeepsSynced(boot, RunOf(boot, init), r, CallsOnly(init));
        CallsOnlyPush(init, last);
        assert init + [last] == actions;
      case Checkpoint(ds) =>
        SessionLive(boot, init);
        CheckpointKeepsSynced(boot, RunOf(boot, init), ds);
        assert !CallsOnly(actions) by { assert !actions[|actions| - 1].Call?; }
    }
  }

  lemma CallsOnlyPush(init: seq<Action>, last: Action)
    requires last.Call?
    ensures CallsOnly(init + [last]) <==> CallsOnly(init)
  {
    if CallsOnly(init + [last]) {
      forall i | 0 <= i < |init| ensures init[i].Call? {
        assert (init + [last])[i].Call?;
      }
    }
  }

  // ---------------------------------------------------------------- crash anywhere

  /** The recovered form of a live account: no live incarnation, no refusal log, the same slots. */
  predicate Recovers(a: AccountState, c: AccountState, exact: bool) {
    && c == As(a, c.window, a.ambiguous).(incarnations := Demoted(a.incarnations))
    && SameSlots(a.window, c.window)
    && (exact ==> c.window == a.window)
  }

  /** Recovery from `disk` succeeds and yields exactly these accounts, chain and next sequence. */
  ghost predicate RecoversTo(limits: Limits, disk: Disk, accounts: Accounts, chain: Digest, next: nat, exact: bool) {
    && Recover(limits, disk).Good?
    && var c := Recover(limits, disk).value;
       && c.recovered && !c.failed && c.chain == chain && c.next == next
       && c.accounts.Keys == accounts.Keys
       && forall k :: k in accounts ==> Recovers(accounts[k], c.accounts[k], exact)
  }

  lemma MirrorsRecover(limits: Limits, disk: Disk, accounts: Accounts, exact: bool)
    requires Replay(limits, disk).Good? && Mirrors(accounts, Replay(limits, disk).value.accounts, exact)
    ensures RecoversTo(limits, disk, accounts, Replay(limits, disk).value.chain, Replay(limits, disk).value.next, exact)
  {
    hide Replay;
    ReplayNeverFails(limits, disk);
  }

  /** Replay never latches the failure flag. */
  lemma {:induction false} ReplayNeverFails(limits: Limits, disk: Disk)
    ensures Replay(limits, disk).Good? ==> !Replay(limits, disk).value.failed
    decreases |disk.log|
  {
    hide RestoredAccounts;
    if disk.log != [] { ReplayNeverFails(limits, disk.(log := disk.log[..|disk.log| - 1])); }
  }

  /** Replaying the intent of a call notes it, and does nothing else. */
  lemma IntentNotes(limits: Limits, w: World, r: Request, exact: bool)
    requires Synced(limits, w.state, w.disk, exact) && NoteReadable(r, limits.maxNote)
    ensures var rep := Replay(limits, w.disk).value;
            Replay(limits, Appended(w.disk, [IntentFor(w.state, r)])) ==
            Good(rep.(accounts := MarkedAmbiguous(limits, rep.accounts, r, w.state.next)))
  {
    hide Mirrors;
    ReplayAppend(limits, w.disk, IntentFor(w.state, r));
  }

  /** The replayed accounts with the intent noted are the recovered form of the live ones with it pending. */
  lemma NotedRecover(limits: Limits, live: Accounts, rep: Accounts, r: Request, sequence: nat, exact: bool)
    requires Mirrors(live, rep, exact)
    ensures var noted, pending := MarkedAmbiguous(limits, rep, r, sequence), Pending(live, r, sequence);
            && noted.Keys == pending.Keys
            && forall k :: k in pending ==> Recovers(pending[k], Unreconciled(noted)[k], exact)
  {
    var id := r.authority.account;
    if id in rep { IntentReplays(limits, live[id], rep, r, sequence, exact); }
  }

  /** The intent of a call is pending on its account: recovery shows it as the one ambiguous note. */
  lemma PendingRecovers(limits: Limits, disk: Disk, w: World, r: Request, exact: bool)
    requires Clamped(limits) && Synced(limits, w.state, w.disk, exact)
    requires Replay(limits, disk) ==
             Good(Replay(limits, w.disk).value.(accounts := MarkedAmbiguous(limits,
                 Replay(limits, w.disk).value.accounts, r, w.state.next)))
    ensures RecoversTo(limits, disk, Pending(w.state.accounts, r, w.state.next), w.state.chain, w.state.next, exact)
  {
    hide Recovers, Mirrors, MarkedAmbiguous, Pending, Replay;
    ReplayNeverFails(limits, w.disk);
    NotedRecover(limits, w.state.accounts, Replay(limits, w.disk).value.accounts, r, w.state.next, exact);
  }

  /** The two records of a decision. */
  function PairOf(st: EngineState, r: Request, d: Decision): (records: seq<JournalRecord>)
    requires d.Commit?
    ensures |records| == 2 && records[..0] == [] && records[..1] == [IntentFor(st, r)] && records[..2] == records
  {
    [IntentFor(st, r), CommitFor(st, r, d.outcome, d.after)]
  }

  /** The first `cut` records of a call can be replayed. */
  predicate CutReadable(st: EngineState, r: Request, cut: nat) {
    (1 <= cut ==> |r.note| <= ENCODED_NOTE) && (2 <= cut ==> !Forfeits(st, r))
  }

  /** What recovery yields when a crash keeps the first `cut` of a call's two records. */
  ghost predicate CrashRecovers(boot: Boot, w: World, r: Request, d: Decision, cut: nat, exact: bool)
    requires d.Commit? && cut <= 2
  {
    var disk := Cut(w.disk, PairOf(w.state, r, d), cut);
    var after := Act(boot, w, Call(r)).state;
    if cut == 0 then RecoversTo(boot.limits, disk, w.state.accounts, w.state.chain, w.state.next, exact)
    else if cut == 1 then
      RecoversTo(boot.limits, disk, Pending(w.state.accounts, r, w.state.next), w.state.chain, w.state.next, exact)
    else RecoversTo(boot.limits, disk, after.accounts, after.chain, after.next, exact)
  }

  /** A crash at any of the three points of a call on a synced disk, when what reached the disk can be read back. */
  lemma CrashAt(boot: Boot, w: World, r: Request, d: Decision, cut: nat, exact: bool)
    requires Clamped(boot.limits) && WorldOk(boot.limits, w, exact) && cut <= 2
    requires d == Decide(boot, w.state, r) && d.Commit? && CutReadable(w.state, r, cut)
    ensures CrashRecovers(boot, w, r, d, cut, exact)
  {
    hide Decide, LosesBinding, Forfeits, RecoversTo, Mirrors, Act, Replay, Capturable;
    var disk := Cut(w.disk, PairOf(w.state, r, d), cut);
    DecidedRequest(boot, w.state, r, d);
    if cut == 0 {
      assert w.disk.log + [] == w.disk.log;
      MirrorsRecover(boot.limits, w.disk, w.state.accounts, exact);
    } else if cut == 1 {
      IntentNotes(boot.limits, w, r, exact);
      PendingRecovers(boot.limits, disk, w, r, exact);
    } else {
      LossIsForeseen(boot, w, r, d);
      CallReplays(boot, w, r, exact);
      CallCommits(boot, w, r, d);
      MirrorsRecover(boot.limits, disk, Act(boot, w, Call(r)).state.accounts, exact);
    }
  }

  /** A crash during a call of any session, after any number of its two records. Recovery succeeds exactly when nothing
      was lost before and what reached the disk can be read back, and then yields the live state before the call, the
      same with the call's intent noted as ambiguous, or the live state after it. */
  lemma CrashDuringCall(boot: Boot, actions: seq<Action>, r: Request, cut: nat)
    requires FencesFit(boot.limits) && Session(boot, actions) && Decide(boot, RunOf(boot, actions).state, r).Commit?
    requires cut <= 2
    ensures var w := RunOf(boot, actions);
            var d := Decide(boot, w.state, r);
            && (Lossless(boot, actions) && CutReadable(w.state, r, cut) ==>
                   CrashRecovers(boot, w, r, d, cut, CallsOnly(actions)))
            && (Recover(boot.limits, Cut(w.disk, PairOf(w.state, r, d), cut)).Good? <==>
                  Lossless(boot, actions) && CutReadable(w.state, r, cut))
  {
    hide CutReadable, Decide, Replay, Session, Lossless, Recovers, Unreconciled, Act;
    var w := RunOf(boot, actions);
    var d := Decide(boot, w.state, r);
    if Lossless(boot, actions) {
      SessionSynced(boot, actions);
      if CutReadable(w.state, r, cut) {
        CrashAt(boot, w, r, d, cut, CallsOnly(actions));
      } else {
        CutUnreadable(boot, w, r, d, cut, CallsOnly(actions));
      }
    } else {
      LossyFails(boot, actions);
      BadStaysBad(boot.limits, w.disk, PairOf(w.state, r, d)[..cut]);
    }
  }

  lemma RestartsRecover(limits: Limits, st: EngineState, disk: Disk)
    requires Restarts(limits, st, disk)
    ensures RecoversTo(limits, disk, st.accounts, st.chain, st.next + 1, false)
  {
    hide RecoversTo, Mirrors, Replay;
    MirrorsRecover(limits, disk, st.accounts, false);
  }

  lemma SyncedRecovers(limits: Limits, st: EngineState, disk: Disk, exact: bool)
    requires Synced(limits, st, disk, exact)
    ensures RecoversTo(limits, disk, st.accounts, st.chain, st.next, exact)
    ensures RecoversTo(limits, disk, st.accounts, st.chain, st.next, false)
  {
    MirrorsRecover(limits, disk, st.accounts, exact);
    MirrorsRecover(limits, disk, st.accounts, false);
  }

  /** The disk after the first `cut` writes of a snapshot can be read back: up to the log record it also takes the log
      before the snapshot, from the installed file on it does not. */
  ghost predicate SnapshotReadable(boot: Boot, actions: seq<Action>, ds: DurableState<Digest>, cut: nat) {
    (cut <= 1 ==> Lossless(boot, actions)) && (1 <= cut ==> StateReadable(ds))
  }

  lemma SnapshotCrash(boot: Boot, w: World, ds: DurableState<Digest>, cut: nat)
    requires Clamped(boot.limits) && LiveOk(boot.limits, w) && CapturesAll(w.state, ds) && 1 <= cut <= 3
    requires cut == 1 ==> Replay(boot.limits, w.disk).Good?
    ensures var disk := SnapshotCut(w.state, w.disk, ds, cut);
            && (StateReadable(ds) ==>
                   RecoversTo(boot.limits, disk, w.state.accounts, w.state.chain, w.state.next + 1, false))
            && (Recover(boot.limits, disk).Good? <==> StateReadable(ds))
  {
    var disk := SnapshotCut(w.state, w.disk, ds, cut);
    if StateReadable(ds) {
      CapturableRestores(boot.limits, w.state);
      SnapshotCutReplays(boot.limits, w.state, w.disk, ds, cut);
      RestartsRecover(boot.limits, w.state, disk);
    } else {
      SnapshotCutUnreadable(boot.limits, w.state, w.disk, ds, cut);
    }
  }

  /** A crash after any of a snapshot's three writes, in any session: exactly when recovery succeeds, and then it yields
      the same accounts, chain and (past the snapshot's own record) next sequence. */
  lemma CrashDuringSnapshot(boot: Boot, actions: seq<Action>, ds: DurableState<Digest>, cut: nat)
    requires FencesFit(boot.limits) && Session(boot, actions) && CapturesAll(RunOf(boot, actions).state, ds) && cut <= 3
    ensures var w := RunOf(boot, actions);
            var disk := SnapshotCut(w.state, w.disk, ds, cut);
            && (SnapshotReadable(boot, actions, ds, cut) ==>
                  RecoversTo(boot.limits, disk, w.state.accounts, w.state.chain, w.state.next + (if cut == 0 then 0 else 1), false))
            && (Recover(boot.limits, disk).Good? <==> SnapshotReadable(boot, actions, ds, cut))
  {
    hide CapturesAll, RecoversTo, StateReadable, Capturable, Lossless, Session, Replay, RunOf;
    var w := RunOf(boot, actions);
    SessionLive(boot, actions);
    if cut <= 1 {
      RecoversIffLossless(boot, actions);
    }
    if cut == 0 {
      if Lossless(boot, actions) {
        SessionSynced(boot, actions);
        SyncedRecovers(boot.limits, w.state, w.disk, CallsOnly(actions));
      }
    } else if cut == 1 && !Lossless(boot, actions) {
      ReplayAppend(boot.limits, w.disk, SnapshotFor(w.state, ds));
    } else {
      SnapshotCrash(boot, w, ds, cut);
    }
  }

  // ---------------------------------------------------------------- every prefix of the log

  lemma LogGrows(boot: Boot, w: World, r: Request)
    ensures var w' := Act(boot, w, Call(r)); w.disk.log <= w'.disk.log && w'.disk.snapshot == w.disk.snapshot
    ensures |Act(boot, w, Call(r)).disk.log| == |w.disk.log| + (if Decide(boot, w.state, r).Commit? then 2 else 0)
  {
    hide Decide, SnapshotCut, CommitFor, Settled;
  }

  /** After `j` actions of a calls-only session, recovery from the first `k` records of the final log gives the
      live state of that moment, or that state with the next call's intent pending. */
  ghost predicate PrefixIsLive(boot: Boot, actions: seq<Action>, log: seq<JournalRecord>, k: nat, j: nat)
    requires j <= |actions| && k <= |log|
  {
    var w := RunOf(boot, actions[..j]);
    var disk := Disk(log[..k], None);
    || (|w.disk.log| == k && RecoversTo(boot.limits, disk, w.state.accounts, w.state.chain, w.state.next, true))
    || (|w.disk.log| + 1 == k && j < |actions| && actions[j].Call?
        && RecoversTo(boot.limits, disk, Pending(w.state.accounts, actions[j].request, w.state.next), w.state.chain, w.state.next, true))
  }

  lemma {:induction false} NoSnapshotFile(boot: Boot, actions: seq<Action>)
    requires CallsOnly(actions)
    ensures RunOf(boot, actions).disk.snapshot.None?
    decreases |actions|
  {
    if actions != [] {
      var init := actions[..|actions| - 1];
      NoSnapshotFile(boot, init);
      LogGrows(boot, RunOf(boot, init), actions[|actions| - 1].request);
    }
  }

  lemma NothingWritten(boot: Boot)
    ensures RunOf(boot, []).disk == Disk([], None)
  {}

  /** The session before its last call. */
  lemma BeforeLastCall(boot: Boot, actions: seq<Action>)
    requires CallsOnly(actions) && Session(boot, actions) && Lossless(boot, actions) && actions != []
    ensures var init, last := actions[..|actions| - 1], actions[|actions| - 1];
            && CallsOnly(init) && Session(boot, init) && Lossless(boot, init)
            && last.Call? && !Loses(boot, RunOf(boot, init), last)
            && RunOf(boot, actions) == Act(boot, RunOf(boot, init), last)
  {
    hide Act, Loses, Possible;
  }

  /** The whole log recovers to the state at its end. */
  lemma WholeIsLive(boot: Boot, actions: seq<Action>)
    requires FencesFit(boot.limits) && CallsOnly(actions) && Session(boot, actions) && Lossless(boot, actions)
    ensures PrefixIsLive(boot, actions, RunOf(boot, actions).disk.log, |RunOf(boot, actions).disk.log|, |actions|)
  {
    hide RunOf, Session, Lossless, RecoversTo, Synced, LiveOk;
    var w := RunOf(boot, actions);
    assert actions[..|actions|] == actions && w.disk.log[..|w.disk.log|] == w.disk.log;
    NoSnapshotFile(boot, actions);
    SessionSynced(boot, actions);
    SyncedRecovers(boot.limits, w.state, w.disk, true);
  }

  /** The log cut between the two records of its last call recovers to the state before it, with its intent pending. */
  lemma HalfIsLive(boot: Boot, actions: seq<Action>, k: nat)
    requires FencesFit(boot.limits) && CallsOnly(actions) && Session(boot, actions) && Lossless(boot, actions)
    requires actions != []
    requires |RunOf(boot, actions[..|actions| - 1]).disk.log| < k < |RunOf(boot, actions).disk.log|
    ensures PrefixIsLive(boot, actions, RunOf(boot, actions).disk.log, k, |actions| - 1)
  {
    hide RunOf, Session, Lossless, RecoversTo, WorldOk, Act, Decide, Forfeits;
    var init, r := actions[..|actions| - 1], actions[|actions| - 1].request;
    var before, w := RunOf(boot, init), RunOf(boot, actions);
    var d := Decide(boot, before.state, r);
    BeforeLastCall(boot, actions);
    LogGrows(boot, before, r);
    CallCommits(boot, before, r, d);
    NoSnapshotFile(boot, init);
    SessionSynced(boot, init);
    CrashAt(boot, before, r, d, 1, true);
    PrefixOfPair(before, r, d, w.disk.log, k);
  }

  /** Live/replay equivalence: every record-boundary prefix of a lossless log recovers to the live state after the
      attempts it commits. */
  lemma {:induction false} EveryPrefixRecovers(boot: Boot, actions: seq<Action>, k: nat) returns (j: nat)
    requires FencesFit(boot.limits) && CallsOnly(actions) && Session(boot, actions) && Lossless(boot, actions)
    requires k <= |RunOf(boot, actions).disk.log|
    ensures j <= |actions| && PrefixIsLive(boot, actions, RunOf(boot, actions).disk.log, k, j)
    decreases |actions|
  {
    hide RunOf, Session, Lossless, PrefixIsLive, Act, Loses;
    NothingWritten(boot);
    if k == |RunOf(boot, actions).disk.log| {
      WholeIsLive(boot, actions);
      return |actions|;
    }
    var init := actions[..|actions| - 1];
    BeforeLastCall(boot, actions);
    LogGrows(boot, RunOf(boot, init), actions[|actions| - 1].request);
    if k > |RunOf(boot, init).disk.log| {
      HalfIsLive(boot, actions, k);
      return |actions| - 1;
    }
    j := EveryPrefixRecovers(boot, init, k);
    assert init[..|init|] == init;
    LaterCallsKeepPrefix(boot, actions, RunOf(boot, init).disk.log, RunOf(boot, actions).disk.log, k, j);
  }

  /** What a prefix of the log recovers to does not depend on what was appended later. */
  lemma LaterCallsKeepPrefix(boot: Boot, actions: seq<Action>, log: seq<JournalRecord>, longer: seq<JournalRecord>,
      k: nat, j: nat)
    requires actions != [] && log <= longer && k <= |log|
    requires var init := actions[..|actions| - 1]; j <= |init| && PrefixIsLive(boot, init, log, k, j)
    requires j == |actions| - 1 ==> |RunOf(boot, actions[..j]).disk.log| == |log|
    ensures PrefixIsLive(boot, actions, longer, k, j)
  {
    hide RecoversTo, RunOf;
    var init := actions[..|actions| - 1];
    assert actions[..j] == init[..j];
    assert longer[..k] == log[..k];
    assert j < |init| ==> actions[j] == init[j];
  }

  lemma PrefixOfPair(w: World, r: Request, d: Decision, log: seq<JournalRecord>, k: nat)
    requires d.Commit? && k == |w.disk.log| + 1 && log == w.disk.log + PairOf(w.state, r, d)
    ensures Cut(w.disk, PairOf(w.state, r, d), 1) == Disk(log[..k], w.disk.snapshot)
  {
    assert log[..k] == w.disk.log + PairOf(w.state, r, d)[..1];
  }

  // ---------------------------------------------------------------- exactly when a log recovers

  /** The digest sees a binding: an account with a newly bound caller hashes differently. */
  lemma BindingShows(a: AccountState, b: AccountState, id: u64)
    requires id in a.incarnations && id in b.incarnations
    requires StandingOf(a.incarnations[id]) != StandingOf(b.incarnations[id])
    ensures AccountDigest(a) != AccountDigest(b)
  {
    assert Standings(a.incarnations)[id] != Standings(b.incarnations)[id];
  }

  /** Replaying the commit of a refused Issue that newly bound a field fails the digest check. */
  lemma LostBindingFails(boot: Boot, st: EngineState, noted: EngineState, a: AccountState, r: Request, w: Window,
      notes: seq<AmbiguousNote>)
    requires DecideOn(boot, a, r).Commit? && !DecideOn(boot, a, r).outcome.applied && NewlyBinds(a, r)
    requires r.authority.account in noted.accounts && noted.accounts[r.authority.account] == As(a, w, notes)
    ensures var d := DecideOn(boot, a, r);
            ReplayAttempt(boot.limits, noted, AttemptOf(st, r, d.outcome, d.after)).Bad?
  {
    hide DataEffect, ControlEffect, Published, ViewOf, AccountDigest, ReplayTransition;
    var d, id := DecideOn(boot, a, r), r.authority.incarnation;
    var e := DataEffect(boot, a, r);
    assert d == Conclude(a, r, InEra(Blank(r), a), e);
    DeclinedKeeps(boot, a, r, e);
    BoundKeepsRecord(a.incarnations[id], r);
    var rebuilt := CountRefused(As(a, w, notes), id);
    BindingShows(rebuilt, d.after, id);
    assert Rebuilt(boot.limits, noted.accounts, AttemptOf(st, r, d.outcome, d.after)) == Good(rebuilt);
  }

  lemma LossFailsCommit(boot: Boot, st: EngineState, rep: EngineState, noted: EngineState, r: Request, d: Decision,
      exact: bool)
    requires Up(st) && Mirrors(st.accounts, rep.accounts, exact) && d == Decide(boot, st, r) && LosesBinding(st, r, d)
    requires noted == rep.(accounts := MarkedAmbiguous(boot.limits, rep.accounts, r, st.next))
    ensures ReplayRecord(boot.limits, noted, CommitFor(st, r, d.outcome, d.after)).Bad?
  {
    hide MarkedAmbiguous, DecideOn, Mirror, OpenDecision, DescribeOn, RestoredState, ReplayAttempt;
    var id := r.authority.account;
    assert d == DecideOn(boot, st.accounts[id], r);
    IntentReplays(boot.limits, st.accounts[id], rep.accounts, r, st.next, exact);
    LostBindingFails(boot, st, noted, st.accounts[id], r, rep.accounts[id].window, [NoteOf(r, st.next)]);
  }

  /** What reached the disk of a call that loses something cannot be replayed. */
  lemma CutUnreadable(boot: Boot, w: World, r: Request, d: Decision, cut: nat, exact: bool)
    requires WorldOk(boot.limits, w, exact) && d == Decide(boot, w.state, r) && d.Commit?
    requires cut <= 2 && !CutReadable(w.state, r, cut)
    ensures Replay(boot.limits, Cut(w.disk, PairOf(w.state, r, d), cut)).Bad?
  {
    hide Decide, Mirrors, LosesBinding, Forfeits, Replay, ReplayRecord, Capturable;
    var one := Appended(w.disk, [IntentFor(w.state, r)]);
    if |r.note| > ENCODED_NOTE {
      DroppedNote(boot.limits, w.disk, w.state, r);
      if cut == 2 { BadStaysBad(boot.limits, one, [CommitFor(w.state, r, d.outcome, d.after)]); }
    } else {
      LossIsForeseen(boot, w, r, d);
      DecidedRequest(boot, w.state, r, d);
      IntentNotes(boot.limits, w, r, exact);
      ReplayAppend(boot.limits, one, CommitFor(w.state, r, d.outcome, d.after));
      LossFailsCommit(boot, w.state, Replay(boot.limits, w.disk).value, Replay(boot.limits, one).value, r, d, exact);
    }
    AppendTwice(w.disk, IntentFor(w.state, r), CommitFor(w.state, r, d.outcome, d.after));
  }

  lemma AppendTwice(disk: Disk, first: JournalRecord, second: JournalRecord)
    ensures Appended(Appended(disk, [first]), [second]) == Appended(disk, [first, second])
  {
    assert disk.log + [first] + [second] == disk.log + [first, second];
  }

  /** An intent whose note was dropped ends every replay that reaches it. */
  lemma DroppedNote(limits: Limits, disk: Disk, st: EngineState, r: Request)
    requires |r.note| > ENCODED_NOTE && (disk.snapshot.Some? ==> disk.snapshot.value.sequence < st.next)
    ensures Replay(limits, Appended(disk, [IntentFor(st, r)])) ==
            if Replay(limits, disk).Bad? then Replay(limits, disk) else Bad(Corrupt(102))
  {
    ReplayAppend(limits, disk, IntentFor(st, r));
  }

  lemma {:induction false} BadStaysBad(limits: Limits, disk: Disk, records: seq<JournalRecord>)
    requires Replay(limits, disk).Bad?
    ensures Replay(limits, Appended(disk, records)) == Replay(limits, disk)
    decreases |records|
  {
    if records == [] {
      assert disk.log + [] == disk.log;
    } else {
      var init := records[..|records| - 1];
      BadStaysBad(limits, disk, init);
      ReplayAppend(limits, Appended(disk, init), records[|records| - 1]);
      assert disk.log + init + [records[|records| - 1]] == disk.log + records;
    }
  }

  lemma {:induction false} LossyFails(boot: Boot, actions: seq<Action>)
    requires FencesFit(boot.limits) && Session(boot, actions) && !Lossless(boot, actions)
    ensures Replay(boot.limits, RunOf(boot, actions).disk).Bad?
    decreases |actions|
  {
    hide Replay, Possible, Decide, Forfeits, Apply, LiveOk, WorldOk, SnapshotCut;
    var init, last := actions[..|actions| - 1], actions[|actions| - 1];
    var w := RunOf(boot, init);
    SessionLive(boot, init);
    if last.Checkpoint? {
      CheckpointUnreadable(boot, w, last.state);
      return;
    }
    var r, d := last.request, Decide(boot, w.state, last.request);
    if !Lossless(boot, init) { LossyFails(boot, init); }
    if !d.Commit? {
      DecisionReplies(boot, w, r);
      return;
    }
    CallCommits(boot, w, r, d);
    if Lossless(boot, init) {
      SessionSynced(boot, init);
      CutUnreadable(boot, w, r, d, 2, CallsOnly(init));
    } else {
      BadStaysBad(boot.limits, w.disk, PairOf(w.state, r, d));
    }
  }

  lemma CheckpointUnreadable(boot: Boot, w: World, ds: DurableState<Digest>)
    requires LiveOk(boot.limits, w) && !StateReadable(ds)
    ensures Replay(boot.limits, Act(boot, w, Checkpoint(ds)).disk).Bad?
  {
    hide Replay, Capturable, SnapshotCut;
    SnapshotCutUnreadable(boot.limits, w.state, w.disk, ds, 3);
  }

  /** A disk written in one boot recovers if and only if, since the last checkpoint (which must itself be within the
      decoder's ceilings), every decided request's note was within the encoder's bound and no refused Issue newly bound
      a producer, consumer or grant. */
  lemma RecoversIffLossless(boot: Boot, actions: seq<Action>)
    requires FencesFit(boot.limits) && Session(boot, actions)
    ensures Recover(boot.limits, RunOf(boot, actions).disk).Good? <==> Lossless(boot, actions)
  {
    hide RunOf;
    if Lossless(boot, actions) { SessionSynced(boot, actions); } else { LossyFails(boot, actions); }
  }
}
