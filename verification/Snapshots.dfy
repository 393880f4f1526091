/** Whole-state snapshots (src/engine.cpp:473-507, 1361-1473; src/journal.cpp:62-95): what is captured, what is
    restored, and the three durable writes of `snapshot`. */
module Snapshots {
  import opened Types
  import opened Digests
  import opened Ledger
  import opened Windows
  import opened Engine
  import opened Recovery
  import opened LiveReplay
  import opened EngineInvariant

  // ---------------------------------------------------------------- capture

  /** The records listed are exactly the map's, in whatever order the map yields them. */
  ghost predicate Lists(records: seq<Record>, m: map<u64, Record>) {
    && (forall i :: 0 <= i < |records| ==> records[i].id in m && m[records[i].id] == records[i])
    && (forall k :: k in m ==> m[k] in records)
  }

  function Slots(order: seq<Key>): seq<(u64, u64)> {
    seq(|order|, i requires 0 <= i < |order| => (order[i].incarnation, order[i].sequence))
  }

  ghost predicate Captures(a: AccountState, d: DurableAccount<Digest>) {
    && Lists(d.incarnations, a.incarnations)
    && d == DurableOf(a).(incarnations := d.incarnations, fences := a.fences, ambiguous := a.ambiguous,
                          attemptWindow := Slots(a.window.order))
  }

  /** `ds` is a snapshot of the engine `st`: every account once, sorted by id. */
  ghost predicate CapturesAll(st: EngineState, ds: DurableState<Digest>) {
    && ds.journalSequence == st.next && ds.chain == st.chain && ds.snapshots == st.snapshots + 1
    && (forall i, j :: 0 <= i < j < |ds.accounts| ==> ds.accounts[i].config.account < ds.accounts[j].config.account)
    && (forall i :: 0 <= i < |ds.accounts| ==>
          && ds.accounts[i].config.account in st.accounts
          && Captures(st.accounts[ds.accounts[i].config.account], ds.accounts[i]))
    && (forall k :: k in st.accounts ==> exists i :: 0 <= i < |ds.accounts| && ds.accounts[i].config.account == k)
  }

  // ---------------------------------------------------------------- restore

  lemma {:induction false} RestoredFrom(records: seq<Record>, m: map<u64, Record>)
    requires forall i :: 0 <= i < |records| ==> records[i].id in m && m[records[i].id] == records[i]
    ensures forall k :: k in RestoredRecords(records) <==> exists i :: 0 <= i < |records| && records[i].id == k
    ensures forall k :: k in RestoredRecords(records) ==> k in m && RestoredRecords(records)[k] == m[k]
  {
    if records != [] {
      var shorter := records[..|records| - 1];
      RestoredFrom(shorter, m);
      forall k ensures k in RestoredRecords(records) <==> exists i :: 0 <= i < |records| && records[i].id == k {
        if k in RestoredRecords(shorter) {
          var i :| 0 <= i < |shorter| && shorter[i].id == k;
          assert records[i].id == k;
        }
        if exists i :: 0 <= i < |records| && records[i].id == k {
          var i :| 0 <= i < |records| && records[i].id == k;
          if i < |shorter| { assert shorter[i].id == k; }
        }
      }
    }
  }

  lemma ListedRestores(records: seq<Record>, m: map<u64, Record>)
    requires Lists(records, m) && forall k :: k in m ==> m[k].id == k
    ensures RestoredRecords(records) == m
  {
    RestoredFrom(records, m);
    forall k | k in m ensures k in RestoredRecords(records) {
      assert m[k] in records;
      var i :| 0 <= i < |records| && records[i] == m[k];
      assert records[i].id == k;
    }
  }

  lemma {:induction false} RestoredSlots(limit: nat, order: seq<Key>)
    requires 0 < limit && |order| <= limit
    ensures RestoredWindow(limit, Slots(order)).order == order && RestoredWindow(limit, Slots(order)).limit == limit
  {
    if order != [] {
      var shorter := order[..|order| - 1];
      RestoredSlots(limit, shorter);
      var slots := Slots(order);
      assert slots[..|slots| - 1] == Slots(shorter);
      InsertOrder(RestoredWindow(limit, Slots(shorter)), RestoredEntry(slots[|slots| - 1]));
      assert shorter + [order[|order| - 1]] == order;
    }
  }

  /** The window bound of an account is the engine's. */
  predicate Sized(limits: Limits, a: AccountState) {
    a.window.limit == limits.maxWindow && |a.window.order| <= limits.maxWindow
  }

  /** What restoring needs of an account: records at their own keys, a closed ledger, a bounded window, nothing pending.
      */
  ghost predicate Restorable(limits: Limits, a: AccountState) {
    && (forall k :: k in a.incarnations ==> a.incarnations[k].id == k)
    && Closed(a.capacity, a.totals) && Sized(limits, a) && a.ambiguous == []
  }

  lemma OkIsRestorable(limits: Limits, a: AccountState)
    requires AccountOk(limits, a) && Sized(limits, a) && a.ambiguous == []
    ensures Restorable(limits, a)
  {
    forall k | k in a.incarnations ensures a.incarnations[k].id == k {
      assert RecordOk(k, a.incarnations[k], a.epoch, a.generation, a.fences);
    }
  }

  /** The durable account passes its checks and gives back `a`. */
  predicate Restores(limits: Limits, a: AccountState, d: DurableAccount<Digest>) {
    var b := RestoredAccount(limits, d);
    Mirror(a, b, false) && AccountDigest(b) == d.stateDigest && CheckInvariants(b.capacity, b.totals).Ok()
  }

  /** Restoring a captured account gives it back, up to the contents of its window. */
  lemma CaptureRestores(limits: Limits, a: AccountState, d: DurableAccount<Digest>)
    requires Clamped(limits) && Restorable(limits, a) && Captures(a, d)
    ensures Restores(limits, a, d)
  {
    ListedRestores(d.incarnations, a.incarnations);
    RestoredSlots(limits.maxWindow, a.window.order);
  }

  ghost predicate AllRestore(limits: Limits, accounts: Accounts, ds: seq<DurableAccount<Digest>>) {
    forall i :: 0 <= i < |ds| ==>
      ds[i].config.account in accounts && Restores(limits, accounts[ds[i].config.account], ds[i])
  }

  function Ids(ds: seq<DurableAccount<Digest>>): set<u64> {
    set i | 0 <= i < |ds| :: ds[i].config.account
  }

  lemma IdsPush(ds: seq<DurableAccount<Digest>>)
    requires ds != []
    ensures Ids(ds) == Ids(ds[..|ds| - 1]) + {ds[|ds| - 1].config.account}
  {
    var shorter := ds[..|ds| - 1];
    forall k ensures k in Ids(ds) <==> k in Ids(shorter) + {ds[|ds| - 1].config.account} {
      if k in Ids(ds) {
        var i :| 0 <= i < |ds| && ds[i].config.account == k;
        if i < |shorter| { assert shorter[i].config.account == k; }
      }
      if k in Ids(shorter) {
        var i :| 0 <= i < |shorter| && shorter[i].config.account == k;
        assert ds[i].config.account == k;
      }
    }
  }

  lemma {:induction false} CapturedRestore(limits: Limits, accounts: Accounts, ds: seq<DurableAccount<Digest>>)
    requires AllRestore(limits, accounts, ds)
    ensures RestoredAccounts(limits, ds).Good?
    ensures var restored := RestoredAccounts(limits, ds).value;
            && restored.Keys == Ids(ds)
            && (forall k :: k in restored ==> k in accounts && Mirror(accounts[k], restored[k], false))
  {
    if ds != [] {
      var shorter, d := ds[..|ds| - 1], ds[|ds| - 1];
      CapturedRestore(limits, accounts, shorter);
      IdsPush(ds);
      assert Restores(limits, accounts[d.config.account], d);
      assert RestoredAccounts(limits, ds).value == RestoredAccounts(limits,
          shorter).value[d.config.account := RestoredAccount(limits, d)];
    }
  }

  /** The live engine's accounts are invariant, bounded and free of pending notes. */
  ghost predicate Capturable(limits: Limits, st: EngineState) {
    && EngineOk(limits, st)
    && forall k :: k in st.accounts ==> Sized(limits, st.accounts[k]) && st.accounts[k].ambiguous == []
  }

  ghost predicate AllRestorable(limits: Limits, accounts: Accounts) {
    forall k :: k in accounts ==> Restorable(limits, accounts[k])
  }

  lemma CapturableRestores(limits: Limits, st: EngineState)
    requires Capturable(limits, st)
    ensures AllRestorable(limits, st.accounts)
  {
    forall k | k in st.accounts ensures Restorable(limits, st.accounts[k]) {
      OkIsRestorable(limits, st.accounts[k]);
    }
  }

  lemma CaptureRestoresAll(limits: Limits, st: EngineState, ds: DurableState<Digest>)
    requires Clamped(limits) && AllRestorable(limits, st.accounts) && CapturesAll(st, ds)
    ensures AllRestore(limits, st.accounts, ds.accounts)
  {
    forall i | 0 <= i < |ds.accounts|
      ensures ds.accounts[i].config.account in st.accounts
      ensures Restores(limits, st.accounts[ds.accounts[i].config.account], ds.accounts[i])
    {
      CaptureRestores(limits, st.accounts[ds.accounts[i].config.account], ds.accounts[i]);
    }
  }

  lemma CapturesEveryone(st: EngineState, ds: DurableState<Digest>)
    requires CapturesAll(st, ds)
    ensures Ids(ds.accounts) == st.accounts.Keys
  {}

  lemma RestoredMirrors(limits: Limits, st: EngineState, onto: EngineState, ds: DurableState<Digest>, code: nat)
    requires ds.journalSequence == st.next && AllRestore(limits, st.accounts, ds.accounts)
    requires Ids(ds.accounts) == st.accounts.Keys
    ensures RestoredState(limits, onto, st.next, st.chain, ds, code).Good?
    ensures var rep := RestoredState(limits, onto, st.next, st.chain, ds, code).value;
            rep.chain == st.chain && rep.next == st.next + 1 && Mirrors(st.accounts, rep.accounts, false)
  {
    CapturedRestore(limits, st.accounts, ds.accounts);
  }

  /** Restoring a snapshot of the engine, from wherever it is read, mirrors the engine. */
  lemma SnapshotRestores(limits: Limits, st: EngineState, onto: EngineState, ds: DurableState<Digest>, code: nat)
    requires Clamped(limits) && AllRestorable(limits, st.accounts) && CapturesAll(st, ds)
    ensures RestoredState(limits, onto, st.next, st.chain, ds, code).Good?
    ensures var rep := RestoredState(limits, onto, st.next, st.chain, ds, code).value;
            rep.chain == st.chain && rep.next == st.next + 1 && Mirrors(st.accounts, rep.accounts, false)
  {
    CaptureRestoresAll(limits, st, ds);
    CapturesEveryone(st, ds);
    RestoredMirrors(limits, st, onto, ds, code);
  }

  // ---------------------------------------------------------------- the three writes

  function SnapshotFor(st: EngineState, ds: DurableState<Digest>): JournalRecord {
    SnapshotRecord(st.next, st.chain, ds)
  }

  function FileFor(st: EngineState, ds: DurableState<Digest>): SnapshotFile {
    SnapshotFile(st.next, st.chain, ds)
  }

  /** `rotate`: discard every record at or below the snapshot's sequence. */
  function Rotated(log: seq<JournalRecord>, sequence: nat): seq<JournalRecord> {
    if log == [] then []
    else if log[0].sequence <= sequence then Rotated(log[1..], sequence)
    else [log[0]] + Rotated(log[1..], sequence)
  }

  /** The disk after the first `cut` of a snapshot's three writes. */
  function SnapshotCut(st: EngineState, disk: Disk, ds: DurableState<Digest>, cut: nat): Disk {
    var logged := Appended(disk, [SnapshotFor(st, ds)]);
    if cut == 0 then disk
    else if cut == 1 then logged
    else if cut == 2 then logged.(snapshot := Some(FileFor(st, ds)))
    else Disk(Rotated(logged.log, st.next), Some(FileFor(st, ds)))
  }

  ghost predicate Bounded(log: seq<JournalRecord>, next: nat) {
    forall i :: 0 <= i < |log| ==> log[i].sequence < next
  }

  lemma {:induction false} RotatedEmpty(log: seq<JournalRecord>, sequence: nat)
    requires Bounded(log, sequence + 1)
    ensures Rotated(log, sequence) == []
  {
    if log != [] { RotatedEmpty(log[1..], sequence); }
  }

  /** Records the snapshot file covers do not change what is replayed. */
  lemma {:induction false} CoveredReplay(limits: Limits, disk: Disk)
    requires disk.snapshot.Some? && Bounded(disk.log, disk.snapshot.value.sequence + 1)
    ensures Replay(limits, disk) == Base(limits, disk)
    decreases |disk.log|
  {
    if disk.log != [] {
      var shorter := disk.(log := disk.log[..|disk.log| - 1]);
      CoveredReplay(limits, shorter);
      assert Base(limits, shorter) == Base(limits, disk);
    }
  }

  /** Replaying the disk gives the engine as it stands after the snapshot's own record. */
  ghost predicate Restarts(limits: Limits, st: EngineState, disk: Disk) {
    var rep := Replay(limits, disk);
    && rep.Good? && rep.value.chain == st.chain && rep.value.next == st.next + 1
    && Mirrors(st.accounts, rep.value.accounts, false)
  }

  /** The record appended to a log that replays, before the file is installed. */
  lemma RecordRestarts(limits: Limits, st: EngineState, disk: Disk, ds: DurableState<Digest>)
    requires Clamped(limits) && AllRestorable(limits, st.accounts) && CapturesAll(st, ds) && StateReadable(ds)
    requires Replay(limits, disk).Good? && (disk.snapshot.Some? ==> disk.snapshot.value.sequence < st.next)
    ensures Restarts(limits, st, Appended(disk, [SnapshotFor(st, ds)]))
  {
    hide Captures, CapturesAll, AllRestorable, Replay;
    ReplayAppend(limits, disk, SnapshotFor(st, ds));
    SnapshotRestores(limits, st, Replay(limits, disk).value, ds, 104);
  }

  /** Once the file is installed, whatever the log held before it no longer matters. */
  lemma FileRestarts(limits: Limits, st: EngineState, disk: Disk, ds: DurableState<Digest>)
    requires Clamped(limits) && AllRestorable(limits, st.accounts) && CapturesAll(st, ds) && StateReadable(ds)
    requires disk.snapshot == Some(FileFor(st, ds)) && Bounded(disk.log, st.next + 1)
    ensures Restarts(limits, st, disk)
  {
    hide Captures, CapturesAll, AllRestorable;
    CoveredReplay(limits, disk);
    SnapshotRestores(limits, st, BLANK_ENGINE, ds, 101);
  }

  /** The log a snapshot leaves: bounded by its own sequence, and empty once rotated. */
  lemma SnapshotCutFile(st: EngineState, disk: Disk, ds: DurableState<Digest>, cut: nat)
    requires Bounded(disk.log, st.next) && 2 <= cut
    ensures var cutDisk := SnapshotCut(st, disk, ds, cut);
            cutDisk.snapshot == Some(FileFor(st, ds)) && Bounded(cutDisk.log, st.next + 1) && (3 <= cut ==>
                cutDisk.log == [])
  {
    RotatedEmpty(Appended(disk, [SnapshotFor(st, ds)]).log, st.next);
  }

  /** Whichever of the three writes a crash follows, the disk replays to the live engine. From the second write on
      the log before the snapshot need not have been replayable. */
  lemma SnapshotCutReplays(limits: Limits, st: EngineState, disk: Disk, ds: DurableState<Digest>, cut: nat)
    requires Clamped(limits) && AllRestorable(limits, st.accounts) && CapturesAll(st, ds) && StateReadable(ds)
    requires (disk.snapshot.Some? ==> disk.snapshot.value.sequence < st.next) && Bounded(disk.log, st.next)
    requires 1 <= cut <= 3
    requires cut == 1 ==> Replay(limits, disk).Good?
    ensures Restarts(limits, st, SnapshotCut(st, disk, ds, cut))
  {
    hide AllRestorable, CapturesAll, Restarts, Replay;
    if cut == 1 {
      RecordRestarts(limits, st, disk, ds);
    } else {
      SnapshotCutFile(st, disk, ds, cut);
      FileRestarts(limits, st, SnapshotCut(st, disk, ds, cut), ds);
    }
  }

  /** A snapshot with a collection over the decoder's ceiling cannot be read back, whichever write a crash follows. */
  lemma SnapshotCutUnreadable(limits: Limits, st: EngineState, disk: Disk, ds: DurableState<Digest>, cut: nat)
    requires (disk.snapshot.Some? ==> disk.snapshot.value.sequence < st.next) && Bounded(disk.log, st.next)
    requires 1 <= cut <= 3
    requires !StateReadable(ds)
    ensures Replay(limits, SnapshotCut(st, disk, ds, cut)).Bad?
  {
    if cut == 1 {
      ReplayAppend(limits, disk, SnapshotFor(st, ds));
    } else {
      SnapshotCutFile(st, disk, ds, cut);
      CoveredReplay(limits, SnapshotCut(st, disk, ds, cut));
    }
  }

  // ---------------------------------------------------------------- the aggregate digest

  /** The two states differ at most in their aggregate digest. */
  predicate AlikeState(s: DurableState<Digest>, t: DurableState<Digest>) { s.(stateDigest := t.stateDigest) == t }

  predicate AlikeRecord(x: JournalRecord, y: JournalRecord) {
    || x == y
    || (x.SnapshotRecord? && y.SnapshotRecord? && x.sequence == y.sequence && x.chain == y.chain
        && AlikeState(x.state, y.state))
  }

  predicate AlikeFile(x: Option<SnapshotFile>, y: Option<SnapshotFile>) {
    x == y || (x.Some? && y.Some? && x.value.sequence == y.value.sequence && x.value.chain == y.value.chain
               && AlikeState(x.value.state, y.value.state))
  }

  ghost predicate AlikeDisk(x: Disk, y: Disk) {
    && AlikeFile(x.snapshot, y.snapshot) && |x.log| == |y.log|
    && forall i :: 0 <= i < |x.log| ==> AlikeRecord(x.log[i], y.log[i])
  }

  lemma {:induction false} AlikeReplay(limits: Limits, x: Disk, y: Disk)
    requires AlikeDisk(x, y)
    ensures Replay(limits, x) == Replay(limits, y)
    decreases |x.log|
  {
    if x.log == [] {
    } else {
      var n := |x.log| - 1;
      var x', y' := x.(log := x.log[..n]), y.(log := y.log[..n]);
      AlikeReplay(limits, x', y');
      assert AlikeRecord(x.log[n], y.log[n]);
    }
  }

  /** The aggregate state digest a snapshot carries is never read: replacing it in every snapshot of a disk, record or
      file, by anything at all changes nothing that recovery returns. */
  lemma AggregateDigestUnread(limits: Limits, x: Disk, y: Disk)
    requires AlikeDisk(x, y)
    ensures Recover(limits, x) == Recover(limits, y)
  {
    hide AlikeDisk, Replay;
    AlikeReplay(limits, x, y);
  }
}
