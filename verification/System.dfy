/** The engine and its disk over any number of boots, with write failures, crashes and explicit snapshots.

    Two history variables describe a run: `truth`, the live account at each account's last durable commit, and
    `history`, every durable commit and every boot in order. */
module System {
  import opened Types
  import opened Digests
  import opened Windows
  import opened Engine
  import opened Recovery
  import opened EngineInvariant
  import opened Snapshots
  import opened Journals
  import opened Faithful

  datatype Event = Committed(attempt: DurableAttempt<Digest>) | Booted

  datatype Sys = Sys(boot: Boot, mem: EngineState, disk: Disk, truth: Accounts, history: seq<Event>)

  /** The fates of a snapshot's three writes: the log record, the installed file, the rotation. */
  datatype SnapshotIo = SnapshotIo(append: Fate, install: Fate, rotate: Fate)

  datatype Action =
    | Serve(request: Request, io: Io)
    | Snapshot(state: DurableState<Digest>, fates: SnapshotIo)
    | Reboot(operatorId: u64, nonce: Digest128)

  // ---------------------------------------------------------------- steps

  /** The commit record of a decision reached the disk. */
  predicate CommitDurable(io: Io) { io.intent.Written? && Durable(io.commit) }

  function ServeStep(s: Sys, r: Request, io: Io): Sys {
    var d := Decide(s.boot, s.mem, r);
    var applied := Finish(s.boot.limits, s.mem, s.disk, r, io, d);
    if d.Commit? && CommitDurable(io) then
      Sys(s.boot, applied.state, applied.disk,
          s.truth[r.authority.account := Settled(s.boot.limits, d.after, r, d.outcome)],
          s.history + [Committed(AttemptOf(s.mem, r, d.outcome, d.after))])
    else s.(mem := applied.state, disk := applied.disk)
  }

  /** `snapshot` (src/engine.cpp:1430-1473). A failure is reported but does not latch the engine. */
  function SnapshotStep(s: Sys, ds: DurableState<Digest>, io: SnapshotIo): Sys {
    var record, file := SnapshotFor(s.mem, ds), FileFor(s.mem, ds);
    var logged := Appended(s.disk, [record]);
    if !Up(s.mem) then s
    else if io.append.Failed? then s.(disk := if io.append.present then logged else s.disk)
    else if io.install.Failed? then
      s.(mem := s.mem.(next := s.mem.next + 1), disk := if io.install.present then logged.(snapshot := Some(file)) else logged)
    else if io.rotate.Failed? then
      s.(mem := s.mem.(next := s.mem.next + 1),
         disk := Disk(if io.rotate.present then Rotated(logged.log, s.mem.next) else logged.log, Some(file)))
    else
      s.(mem := s.mem.(next := s.mem.next + 1, snapshots := s.mem.snapshots + 1),
         disk := Disk(Rotated(logged.log, s.mem.next), Some(file)))
  }

  /** A crash followed by a start: memory is whatever recovery makes of the disk, or an engine that serves nothing. */
  function RebootStep(s: Sys, operatorId: u64, nonce: Digest128): Sys {
    var recovered := Recover(s.boot.limits, s.disk);
    s.(boot := s.boot.(operatorId := operatorId, nonce := nonce),
       mem := if recovered.Good? then recovered.value else BLANK_ENGINE,
       history := s.history + [Booted])
  }

  function Stepped(s: Sys, action: Action): Sys {
    match action
    case Serve(r, io) => ServeStep(s, r, io)
    case Snapshot(ds, fates) => SnapshotStep(s, ds, fates)
    case Reboot(operatorId, nonce) => RebootStep(s, operatorId, nonce)
  }

  /** A snapshot action writes a snapshot of the engine it is taken of. */
  ghost predicate Enabled(s: Sys, action: Action) {
    action.Snapshot? ==> CapturesAll(s.mem, action.state)
  }

  function Start(boot: Boot): Sys {
    Sys(boot, BLANK_ENGINE.(recovered := true), Disk([], None), map[], [Booted])
  }

  /** The system after a sequence of actions. */
  ghost function RunOf(boot: Boot, actions: seq<Action>): Sys
    decreases |actions|
  {
    if actions == [] then Start(boot) else Stepped(RunOf(boot, actions[..|actions| - 1]), actions[|actions| - 1])
  }

  ghost predicate Valid(boot: Boot, actions: seq<Action>)
    decreases |actions|
  {
    actions == [] ||
    var init := actions[..|actions| - 1];
    Valid(boot, init) && Enabled(RunOf(boot, init), actions[|actions| - 1])
  }

  // ---------------------------------------------------------------- sequence numbers on disk

  /** The next sequence number recovery computes. */
  function Frontier(disk: Disk): nat
    decreases |disk.log|
  {
    if disk.log == [] then (if disk.snapshot.Some? then disk.snapshot.value.sequence + 1 else 1) else
    var shorter, last := disk.(log := disk.log[..|disk.log| - 1]), disk.log[|disk.log| - 1];
    if last.IntentRecord? || Covered(disk.snapshot, last) then Frontier(shorter) else last.sequence + 1
  }

  lemma {:induction false} ReplayNext(limits: Limits, disk: Disk)
    ensures Replay(limits, disk).Good? ==> Replay(limits, disk).value.next == Frontier(disk)
    ensures Replay(limits, disk).Good? ==> !Replay(limits, disk).value.failed
    decreases |disk.log|
  {
    if disk.log != [] { ReplayNext(limits, disk.(log := disk.log[..|disk.log| - 1])); }
  }

  lemma {:induction false} FrontierPastSnapshot(disk: Disk)
    ensures disk.snapshot.Some? ==> disk.snapshot.value.sequence < Frontier(disk)
    decreases |disk.log|
  {
    if disk.log != [] { FrontierPastSnapshot(disk.(log := disk.log[..|disk.log| - 1])); }
  }

  lemma FrontierAppend(disk: Disk, record: JournalRecord)
    ensures Frontier(Appended(disk, [record])) ==
            if record.IntentRecord? || Covered(disk.snapshot, record) then Frontier(disk) else record.sequence + 1
  {
    var longer := Appended(disk, [record]);
    assert longer.log[..|longer.log| - 1] == disk.log;
    assert longer.(log := disk.log) == disk;
  }

  lemma {:induction false} FrontierCovered(disk: Disk)
    requires disk.snapshot.Some? && forall i :: 0 <= i < |disk.log| ==>
               disk.log[i].sequence <= disk.snapshot.value.sequence
    ensures Frontier(disk) == disk.snapshot.value.sequence + 1
    decreases |disk.log|
  {
    if disk.log != [] { FrontierCovered(disk.(log := disk.log[..|disk.log| - 1])); }
  }

  /** No record lies beyond `top`. */
  ghost predicate Within(disk: Disk, top: nat) {
    forall i :: 0 <= i < |disk.log| ==> disk.log[i].sequence <= top
  }

  /** The live engine numbers its next record past everything durable that a restart would number from. */
  ghost predicate Numbered(st: EngineState, disk: Disk) {
    && (disk.snapshot.Some? ==> disk.snapshot.value.sequence < st.next)
    && st.next <= Frontier(disk) && Within(disk, st.next)
  }

  // ---------------------------------------------------------------- the system invariant

  ghost predicate MemAgrees(s: Sys) {
    && AccountsOk(s.boot.limits, s.mem.accounts)
    && SameAccounts(s.mem.accounts, s.truth)
    && Numbered(s.mem, s.disk)
  }

  ghost predicate SysOk(s: Sys) {
    && AccountsOk(s.boot.limits, s.truth)
    && DiskTells(s.boot.limits, s.disk, s.truth)
    && Within(s.disk, Frontier(s.disk))
    && (Up(s.mem) ==> MemAgrees(s))
  }

  // ---------------------------------------------------------------- appends

  lemma IntentAppends(limits: Limits, st: EngineState, disk: Disk, truth: Accounts, r: Request)
    requires Numbered(st, disk) && DiskTells(limits, disk, truth)
    ensures var disk' := Appended(disk, [IntentFor(st, r)]);
            && DiskTells(limits, disk', truth) && Frontier(disk') == Frontier(disk)
            && Within(disk', st.next) && disk'.snapshot == disk.snapshot
  {
    var intent := IntentFor(st, r);
    ReplayAppend(limits, disk, intent);
    FrontierAppend(disk, intent);
    if Replay(limits, disk).Good? && SameAccounts(Replay(limits, disk).value.accounts, truth) {
      IntentTells(limits, Replay(limits, disk).value.accounts, truth, r, intent.sequence);
    }
  }

  lemma PairAppends(limits: Limits, st: EngineState, disk: Disk, truth: Accounts, r: Request, o: Outcome,
      after: AccountState)
    requires Numbered(st, disk) && DiskTells(limits, disk, truth) && o.decided
    ensures var disk' := Appended(disk, [IntentFor(st, r), CommitFor(st, r, o, after)]);
            && DiskTells(limits, disk', truth[r.authority.account := Settled(limits, after, r, o)])
            && Frontier(disk') == st.next + 2 && Within(disk', st.next + 2) && disk'.snapshot == disk.snapshot
  {
    hide Replay, ReplayAttempt, RestoredState, Settled, SameAccounts, OutcomeDigest;
    var intent, commit := IntentFor(st, r), CommitFor(st, r, o, after);
    var one := Appended(disk, [intent]);
    IntentAppends(limits, st, disk, truth, r);
    ReplayAppend(limits, one, commit);
    FrontierAppend(one, commit);
    if Replay(limits, Appended(one, [commit])).Good? {
      AttemptTells(limits, Replay(limits, one).value, truth, st, r, o, after);
    }
    assert disk.log + [intent] + [commit] == disk.log + [intent, commit];
    assert Appended(one, [commit]) == Appended(disk, [intent, commit]);
  }

  // ---------------------------------------------------------------- calls

  lemma DecisionDecides(boot: Boot, st: EngineState, r: Request)
    ensures Decide(boot, st, r).Commit? ==> Up(st) && Decide(boot, st, r).outcome.decided
  {}

  /** The engine state and disk a decision leaves, by the fate of its writes. */
  lemma FinishCases(limits: Limits, st: EngineState, disk: Disk, r: Request, io: Io, d: Decision)
    requires d.Commit?
    ensures var f := Finish(limits, st, disk, r, io, d);
            var intent, commit := IntentFor(st, r), CommitFor(st, r, d.outcome, d.after);
            && (io == ALL_WRITTEN ==>
                  f.state.next == st.next + 2 && f.state.recovered == st.recovered && f.state.failed == st.failed)
            && (io != ALL_WRITTEN ==> f.state.failed)
            && (CommitDurable(io) ==> f.disk == Appended(disk, [intent, commit]))
            && (!CommitDurable(io) ==> f.disk == disk || f.disk == Appended(disk, [intent]))
  {
    assert disk.log + [] == disk.log;
  }

  lemma ServeKeeps(s: Sys, r: Request, io: Io)
    requires FencesFit(s.boot.limits) && SysOk(s)
    ensures SysOk(ServeStep(s, r, io))
  {
    hide Decide, Finish, Settled, AttemptOf, DiskTells, SameAccounts, AccountOk, Frontier;
    var d, id := Decide(s.boot, s.mem, r), r.authority.account;
    DecisionDecides(s.boot, s.mem, r);
    if d.Commit? {
      DecisionKeeps(s.boot, s.mem, r);
      FinishCases(s.boot.limits, s.mem, s.disk, r, io, d);
      if CommitDurable(io) {
        var settled := Settled(s.boot.limits, d.after, r, d.outcome);
        SettledConfig(s.boot.limits, d.after, r, d.outcome);
        FinishAccounts(s.boot.limits, s.mem, s.disk, r, io, d);
        PairAppends(s.boot.limits, s.mem, s.disk, s.truth, r, d.outcome, d.after);
        PutAccount(s.boot.limits, s.truth, id, settled);
        PutAccount(s.boot.limits, s.mem.accounts, id, settled);
        SamePut(s.mem.accounts, s.truth, id, settled, settled);
      } else {
        IntentAppends(s.boot.limits, s.mem, s.disk, s.truth, r);
      }
    } else {
      if Up(s.mem) { DecisionKeeps(s.boot, s.mem, r); } else { IdleReplies(s.boot, s.mem, r); }
      RepliesKeep(s, r, io);
    }
  }

  lemma RepliesKeep(s: Sys, r: Request, io: Io)
    requires Decide(s.boot, s.mem, r).Reply?
    ensures ServeStep(s, r, io) == s
  {
    hide Decide;
  }

  /** An engine that is not recovered, or has latched a journal failure, changes nothing. */
  lemma IdleReplies(boot: Boot, st: EngineState, r: Request)
    requires !Up(st)
    ensures Decide(boot, st, r).Reply?
  {}

  // ---------------------------------------------------------------- snapshots and reboots

  lemma SnapshotAppendTells(limits: Limits, st: EngineState, disk: Disk, truth: Accounts, ds: DurableState<Digest>)
    requires CapturesAll(st, ds) && SameAccounts(st.accounts, truth)
    requires disk.snapshot.Some? ==> disk.snapshot.value.sequence < st.next
    ensures DiskTells(limits, Appended(disk, [SnapshotFor(st, ds)]), truth)
  {
    ReplayAppend(limits, disk, SnapshotFor(st, ds));
    if Replay(limits, Appended(disk, [SnapshotFor(st, ds)])).Good? {
      SnapshotTells(limits, st, truth, Replay(limits, disk).value, ds, 104);
    }
  }

  lemma SnapshotAppends(st: EngineState, disk: Disk, ds: DurableState<Digest>)
    requires Numbered(st, disk)
    ensures var disk' := Appended(disk, [SnapshotFor(st, ds)]);
            Frontier(disk') == st.next + 1 && Within(disk', st.next) && disk'.snapshot == disk.snapshot
  {
    FrontierAppend(disk, SnapshotFor(st, ds));
  }

  /** Once the snapshot file is installed, the records it covers no longer matter, rotated away or not. */
  lemma FileTells(limits: Limits, st: EngineState, disk: Disk, truth: Accounts, ds: DurableState<Digest>)
    requires CapturesAll(st, ds) && SameAccounts(st.accounts, truth)
    requires disk.snapshot == Some(FileFor(st, ds)) && Within(disk, st.next)
    ensures DiskTells(limits, disk, truth) && Frontier(disk) == st.next + 1
  {
    CoveredReplay(limits, disk);
    FrontierCovered(disk);
    if Replay(limits, disk).Good? { SnapshotTells(limits, st, truth, BLANK_ENGINE, ds, 101); }
  }

  /** The disk and next sequence a snapshot leaves, by the fates of its writes. */
  lemma SnapshotCases(s: Sys, ds: DurableState<Digest>, io: SnapshotIo)
    requires Up(s.mem) && Within(s.disk, s.mem.next)
    ensures var s' := SnapshotStep(s, ds, io);
            var logged := Appended(s.disk, [SnapshotFor(s.mem, ds)]);
            && s' == s.(mem := s'.mem, disk := s'.disk) && s'.mem.accounts == s.mem.accounts
            && (|| (s'.disk == s.disk && s'.mem.next == s.mem.next)
                || (s'.disk == logged && s.mem.next <= s'.mem.next <= s.mem.next + 1)
                || (s'.disk.snapshot == Some(FileFor(s.mem, ds)) && s'.mem.next == s.mem.next + 1
                    && (s'.disk.log == logged.log || s'.disk.log == [])))
  {
    RotatedEmpty(Appended(s.disk, [SnapshotFor(s.mem, ds)]).log, s.mem.next);
  }

  lemma SnapshotKeeps(s: Sys, ds: DurableState<Digest>, io: SnapshotIo)
    requires SysOk(s) && CapturesAll(s.mem, ds)
    ensures SysOk(SnapshotStep(s, ds, io))
  {
    if Up(s.mem) {
      var s' := SnapshotStep(s, ds, io);
      SnapshotCases(s, ds, io);
      SnapshotAppends(s.mem, s.disk, ds);
      SnapshotAppendTells(s.boot.limits, s.mem, s.disk, s.truth, ds);
      if s'.disk.snapshot == Some(FileFor(s.mem, ds)) && s'.mem.next == s.mem.next + 1 && Within(s'.disk, s.mem.next) {
        FileTells(s.boot.limits, s.mem, s'.disk, s.truth, ds);
      }
    }
  }

  lemma RecoveredQuiet(limits: Limits, disk: Disk)
    requires Recover(limits, disk).Good?
    ensures var c := Recover(limits, disk).value;
            forall k, i :: k in c.accounts && i in c.accounts[k].incarnations ==>
              c.accounts[k].incarnations[i].state != Reconciled
  {
    hide Replay;
  }

  lemma SameAccountsOk(limits: Limits, x: Accounts, y: Accounts)
    requires SameAccounts(x, y) && AccountsOk(limits, y)
    requires forall k, i :: k in x && i in x[k].incarnations ==> x[k].incarnations[i].state != Reconciled
    ensures AccountsOk(limits, x)
  {
    hide AccountOk, Same;
    forall k | k in x ensures x[k].config.account == k && AccountOk(limits, x[k]) {
      SameFields(x[k], y[k], 0);
      SameOk(limits, x[k], y[k]);
    }
  }

  lemma RebootKeeps(s: Sys, operatorId: u64, nonce: Digest128)
    requires SysOk(s)
    ensures SysOk(RebootStep(s, operatorId, nonce))
  {
    hide Replay;
    var limits := s.boot.limits;
    if Recover(limits, s.disk).Good? {
      RecoverTells(limits, s.disk, s.truth);
      RecoveredQuiet(limits, s.disk);
      SameAccountsOk(limits, Recover(limits, s.disk).value.accounts, s.truth);
      ReplayNext(limits, s.disk);
      FrontierPastSnapshot(s.disk);
    }
  }

  lemma NextKeepsLimits(s: Sys, action: Action)
    ensures Stepped(s, action).boot.limits == s.boot.limits
  {
    hide Decide, Finish, Settled, AttemptOf, Recover;
  }

  lemma NextKeeps(s: Sys, action: Action)
    requires FencesFit(s.boot.limits) && SysOk(s) && Enabled(s, action)
    ensures SysOk(Stepped(s, action))
  {
    hide ServeStep;
    match action
    case Serve(r, io) => ServeKeeps(s, r, io);
    case Snapshot(ds, fates) => SnapshotKeeps(s, ds, fates);
    case Reboot(operatorId, nonce) => RebootKeeps(s, operatorId, nonce);
  }

  lemma {:induction false} RunOk(boot: Boot, actions: seq<Action>)
    requires FencesFit(boot.limits) && Valid(boot, actions)
    ensures SysOk(RunOf(boot, actions)) && RunOf(boot, actions).boot.limits == boot.limits
    decreases |actions|
  {
    hide Stepped;
    if actions == [] {
    } else {
      var init, last := actions[..|actions| - 1], actions[|actions| - 1];
      RunOk(boot, init);
      NextKeeps(RunOf(boot, init), last);
      NextKeepsLimits(RunOf(boot, init), last);
    }
  }

  /** Recovery never guesses: over any number of boots, snapshots and failed writes, whenever recovery of the disk
      succeeds, its accounts agree with the live ones at their last durable commits. */
  lemma RecoveryNeverGuesses(boot: Boot, actions: seq<Action>)
    requires FencesFit(boot.limits) && Valid(boot, actions) && Recover(boot.limits, RunOf(boot, actions).disk).Good?
    ensures var s := RunOf(boot, actions);
            var recovered := Recover(boot.limits, s.disk).value.accounts;
            SameAccounts(recovered, s.truth) && AccountsOk(boot.limits, recovered)
  {
    hide RunOf;
    var s := RunOf(boot, actions);
    RunOk(boot, actions);
    RecoverTells(boot.limits, s.disk, s.truth);
    RecoveredQuiet(boot.limits, s.disk);
    SameAccountsOk(boot.limits, Recover(boot.limits, s.disk).value.accounts, s.truth);
  }
}
