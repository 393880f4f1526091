/** The engine in its own form (src/engine.cpp): an object whose methods update the account map, the chain and the
    counters in place, write the journal, and undo themselves from a backup when a write fails. Every method is
    proved to compute the functions of modules `Engine` and `Recovery`, about which the properties are proved.

    The fates of the journal writes are parameters; the mutex is not modelled, since it makes every call atomic. */
module CreditEngines {
  import opened Types
  import opened Digests
  import opened Ledger
  import opened LedgerPlans
  import opened Windows
  import opened Engine
  import opened Recovery
  import opened Snapshots
  import opened Journals
  import opened Backups
  import opened System

  /** A decision depends on the accounts only through what it leaves of them. */
  lemma FinishDepends(limits: Limits, st: EngineState, accounts: Accounts, disk: Disk, r: Request, io: Io, d: Decision)
    requires d.Commit?
    requires Restore(accounts, r.authority.account, d.fallback) == Restore(st.accounts, r.authority.account, d.fallback)
    requires var settled := Settled(limits, d.after, r, d.outcome);
             accounts[r.authority.account := settled] == st.accounts[r.authority.account := settled]
    ensures Finish(limits, st.(accounts := accounts), disk, r, io, d) == Finish(limits, st, disk, r, io, d)
  {}

  /** A decision overwrites the account it is about, so what memory held there meanwhile does not matter. */
  lemma FinishOver(limits: Limits, st: EngineState, a: AccountState, disk: Disk, r: Request, io: Io, d: Decision)
    requires d.Commit?
    ensures Finish(limits, st.(accounts := st.accounts[r.authority.account := a]), disk, r, io, d) ==
              Finish(limits, st, disk, r, io, d)
  {
    var id := r.authority.account;
    FinishDepends(limits, st, st.accounts[id := a], disk, r, io, d);
  }

  /** What intent and commit leave, by their fates: the status, the engine's chain and next sequence, and the disk. */
  ghost predicate Persisted(st: EngineState, disk: Disk, r: Request, o: Outcome, account: AccountState, io: Io,
      status: Status,
      after: EngineState, disk': Disk) {
    var intent, commit := IntentFor(st, r), CommitFor(st, r, o, account);
    if io.intent.Failed? then
      && status == StatusOf(io.intent) && after == st
      && disk' == Appended(disk, if io.intent.present then [intent] else [])
    else if io.commit.Failed? then
      && status == StatusOf(io.commit) && after == st.(next := st.next + 1)
      && disk' == Appended(disk, if io.commit.present then [intent, commit] else [intent])
    else
      && status == SUCCESS && after == st.(next := st.next + 2, chain := commit.chain)
      && disk' == Appended(disk, [intent, commit])
  }

  /** `f` is what journaling the decision `d` leaves, by the fates of its two writes. */
  ghost predicate Finished(limits: Limits, st: EngineState, disk: Disk, r: Request, io: Io, d: Decision, f: Applied)
    requires d.Commit?
  {
    var id, intent, commit := r.authority.account, IntentFor(st, r), CommitFor(st, r, d.outcome, d.after);
    if io.intent.Failed? then
      && f.state == st.(accounts := Restore(st.accounts, id, d.fallback), failed := true)
      && f.disk == Appended(disk, if io.intent.present then [intent] else [])
      && f.outcome == d.outcome.(applied := false, decided := false, status := StatusOf(io.intent))
    else if io.commit.Failed? then
      && f.state == st.(accounts := Restore(st.accounts, id, d.fallback), failed := true, next := st.next + 1)
      && f.disk == Appended(disk, if io.commit.present then [intent, commit] else [intent])
      && f.outcome == d.outcome.(applied := false, decided := false, status := StatusOf(io.commit))
    else
      && f.state == st.(accounts := st.accounts[id := Settled(limits, d.after, r, d.outcome)], chain := commit.chain,
                        next := st.next + 2, applied := st.applied + (if d.outcome.applied then 1 else 0),
                        refused := st.refused + (if d.outcome.applied then 0 else 1))
      && f.disk == Appended(disk, [intent, commit]) && f.outcome == d.outcome
  }

  lemma AbandonedIsFinished(limits: Limits, st: EngineState, disk: Disk, r: Request, io: Io, d: Decision,
      status: Status,
      after: EngineState, disk': Disk)
    requires d.Commit? && Persisted(st, disk, r, d.outcome, d.after, io, status, after, disk') && !status.Ok()
    ensures var restored := after.(accounts := Restore(after.accounts, r.authority.account, d.fallback), failed := true);
            Finished(limits, st, disk, r, io, d,
                     Applied(restored, disk', d.outcome.(applied := false, decided := false, status := status)))
  {}

  lemma AnnouncedIsFinished(limits: Limits, st: EngineState, disk: Disk, r: Request, io: Io, d: Decision,
      status: Status,
      after: EngineState, disk': Disk)
    requires d.Commit? && Persisted(st, disk, r, d.outcome, d.after, io, status, after, disk') && status.Ok()
    ensures var settled := after.accounts[r.authority.account := Settled(limits, d.after, r, d.outcome)];
            Finished(limits, st, disk, r, io, d,
                     Applied(after.(accounts := settled, applied := st.applied + (if d.outcome.applied then 1 else 0),
                                    refused := st.refused + (if d.outcome.applied then 0 else 1)), disk', d.outcome))
  {
    hide Settled;
  }

  datatype Ruling = Go | Refuse(status: Status) | Decline(status: Status)

  /** Drop the notes of one slot. */
  method ResolveAmbiguous(notes: seq<AmbiguousNote>, id: u64, sequence: u64) returns (kept: seq<AmbiguousNote>)
    ensures kept == Resolved(notes, id, sequence)
  {
    kept := [];
    var i := 0;
    while i < |notes|
      invariant i <= |notes|
      invariant kept + Resolved(notes[i..], id, sequence) == Resolved(notes, id, sequence)
    {
      if notes[i].incarnation != id || notes[i].sequence != sequence { kept := kept + [notes[i]]; }
      i := i + 1;
    }
  }

  /** Demote every live incarnation, in whatever order the map yields them. */
  method DemoteAll(records: map<u64, Record>) returns (out: map<u64, Record>)
    ensures out == Demoted(records)
  {
    out := records;
    var rest := records.Keys;
    while rest != {}
      invariant rest <= records.Keys && out.Keys == records.Keys
      invariant forall k :: k in records ==> out[k] == if k in rest then records[k] else Demoted(records)[k]
      decreases |rest|
    {
      var k :| k in rest;
      if out[k].state == Reconciled { out := out[k := out[k].(state := Unknown)]; }
      rest := rest - {k};
    }
  }

  /** The ledger operation of a data request, staged on a fresh plan. */
  method LedgerApply(plan: LedgerPlan, ghost a: AccountState, config: AccountConfig,
      r: Request) returns (status: Status)
    requires plan.State() == NewPlan(a.capacity, a.totals) && config == a.config
    modifies plan
    ensures var verdict := LedgerVerdict(a, r);
            && (status.Ok() <==> verdict.status.Ok())
            && (status.Ok() ==> plan.totals == verdict.totals)
            && (!status.Ok() ==> status == verdict.status)
  {
    var ok := false;
    match r.op {
      case Issue => ok := plan.Issue(r.count, config.rules.minIssue, config.rules.maxIssue);
      case Consume => ok := plan.Consume(r.count);
      case Return =>
        if !config.rules.allowReturn { return Status(POLICY_REFUSED, 2); }
        ok := plan.GiveBack(r.count);
      case Protect => ok := plan.Protect(r.count, config.rules.allowProtect);
      case Unprotect => ok := plan.Unprotect(r.count);
      case _ => return Status(INVALID_STATE, 10);
    }
    status := if ok then SUCCESS else plan.status;
  }

  class CreditEngine {
    const boot: Boot
    const journal: InMemoryJournal
    var accounts: Accounts
    var chain: Digest
    var next: nat
    var recovered: bool
    var failed: bool
    var snapshots: nat
    var applied: nat
    var refused: nat

    function State(): EngineState
      reads this
    {
      EngineState(accounts, chain, next, recovered, failed, snapshots, applied, refused)
    }

    /** The fates of a call's writes: while the journal is being replayed every append is refused. */
    function Met(io: Io): Io
      reads journal
    {
      IoMet(journal.replaying, io)
    }

    /** Bounds are clamped, as the constructor leaves them for good. */
    ghost predicate Valid() { Clamped(boot.limits) }

    /** Once recovered, the journal is no longer being replayed, unless a later recovery failed half-way. */
    ghost predicate Ready()
      reads this, journal
    {
      Valid() && (recovered ==> !journal.replaying)
    }

    constructor (boot: Boot, journal: InMemoryJournal)
      ensures State() == BLANK_ENGINE && this.boot == boot.(limits := Clamp(boot.limits)) && this.journal == journal
      ensures Ready()
    {
      this.boot := boot.(limits := Clamp(boot.limits));
      this.journal := journal;
      accounts, chain, next, recovered, failed, snapshots, applied, refused := map[], ZERO, 1, false, false, 0, 0, 0;
    }

    // -------------------------------------------------------------- durability

    /** Intent, then commit; the chain moves only once the commit is durable. */
    method Persist(r: Request, o: Outcome, account: AccountState, io: Io) returns (status: Status)
      modifies `chain, `next, journal
      ensures journal.replaying == old(journal.replaying)
      ensures Persisted(old(State()), old(journal.Contents()), r, o, account, Met(io), status, State(), journal.Contents())
    {
      hide Engine.DurableOf;
      ghost var disk := journal.Contents();
      var intent := IntentRecord(next, OfIntent(chain, next, OfRequest(r)), r);
      assert disk.log + [] == disk.log;
      status := journal.Append(intent, io.intent);
      if !status.Ok() { return; }
      next := next + 1;
      var durable := DurableAttempt(r, o, true, r.op.Open?, DurableOf(account), applied, refused);
      var link := OfCommit(chain, next, OfRequest(r), OutcomeDigest(o));
      assert disk.log + [intent] + [AttemptRecord(next, link, durable)] == disk.log + [intent,
          AttemptRecord(next, link, durable)];
      status := journal.Append(AttemptRecord(next, link, durable), io.commit);
      if !status.Ok() { return; }
      chain := link;
      next := next + 1;
    }

    /** `publish_window_locked`: remember the slot, move the watermark, resolve pending notes. */
    method Publish(id: u64, r: Request, o: Outcome)
      requires id in accounts
      modifies `accounts
      ensures accounts == old(accounts)[id := Published(old(accounts)[id], r, o)]
    {
      var account := accounts[id];
      var window := new AttemptWindow.Of(account.window);
      window.Add(EntryOf(r, o));
      account := account.(window := window.Contents());
      var caller := r.authority.incarnation;
      if caller in account.incarnations {
        var record := account.incarnations[caller].(lastSequence := r.sequence);
        account := account.(incarnations := account.incarnations[caller := record]);
      }
      var kept := ResolveAmbiguous(account.ambiguous, caller, r.sequence);
      accounts := accounts[id := account.(ambiguous := kept)];
    }

    /** `record_refusal_locked`: a bounded ring. */
    method RecordRefusal(id: u64, r: Request, o: Outcome)
      requires id in accounts && 0 < boot.limits.maxRefusalLog
      modifies `accounts
      ensures accounts == old(accounts)[id := Noted(boot.limits, old(accounts)[id], r, o)]
    {
      var account := accounts[id];
      var note := RefusalNote(r.attempt, r.op, r.sequence, r.authority.incarnation, o.status, account.epoch,
                              account.generation);
      if |account.refusals| < boot.limits.maxRefusalLog {
        accounts := accounts[id := account.(refusals := account.refusals + [note])];
        return;
      }
      var at := account.refusalCursor % boot.limits.maxRefusalLog;
      accounts := accounts[id := account.(refusals := account.refusals[at := note],
                                          refusalCursor := (account.refusalCursor + 1) % boot.limits.maxRefusalLog)];
    }

    /** Memory holds the account `r` is about as changed, and everything else as `before`. */
    ghost predicate Holds(before: EngineState, r: Request)
      reads this
    {
      && r.authority.account in accounts
      && State() == before.(accounts := before.accounts[r.authority.account := accounts[r.authority.account]])
    }

    /** Undo what memory holds and latch the failure. */
    method Abandon(r: Request, o: Outcome, backup: Option<Backup>, subject: u64, status: Status) returns (out: Outcome)
      requires r.authority.account in accounts
      requires backup.Some? ==> backup.value.fenceCount <= |accounts[r.authority.account].fences|
      modifies `accounts, `failed
      ensures var fallback := if backup.None? then None
                              else Some(Restored(old(accounts)[r.authority.account], backup.value, r.authority.incarnation, subject));
              State() == old(State()).(accounts := Restore(old(accounts), r.authority.account, fallback),
                                       failed := true)
      ensures out == o.(applied := false, decided := false, status := status)
    {
      var id := r.authority.account;
      accounts := if backup.None? then accounts - {id}
                  else accounts[id := Restored(accounts[id], backup.value, r.authority.incarnation, subject)];
      failed := true;
      out := o.(applied := false, decided := false, status := status);
    }

    /** Publish a durable decision and count it. */
    method Announce(r: Request, o: Outcome)
      requires r.authority.account in accounts && 0 < boot.limits.maxRefusalLog
      modifies `accounts, `applied, `refused
      ensures var id := r.authority.account;
              State() == old(State()).(accounts := old(accounts)[id := Settled(boot.limits, old(accounts)[id], r, o)],
                                       applied := old(applied) + (if o.applied then 1 else 0),
                                       refused := old(refused) + (if o.applied then 0 else 1))
    {
      Publish(r.authority.account, r, o);
      if o.applied {
        applied := applied + 1;
      } else {
        RecordRefusal(r.authority.account, r, o);
        refused := refused + 1;
      }
    }

    /** The tail every decision shares: persist, then publish; or undo, latch and report the failure. `backup` is absent
        for an account this very call created, which is then erased. `d` is the decision memory already holds. */
    method Carry(r: Request, o: Outcome, backup: Option<Backup>, subject: u64, io: Io,
        ghost d: Decision) returns (out: Outcome)
      requires 0 < boot.limits.maxRefusalLog && r.authority.account in accounts
      requires d.Commit? && d.after == accounts[r.authority.account] && d.outcome == o
      requires backup.Some? ==> backup.value.fenceCount <= |d.after.fences|
      requires d.fallback ==
                 if backup.None? then None else Some(Restored(d.after, backup.value, r.authority.incarnation, subject))
      modifies this, journal
      ensures journal.replaying == old(journal.replaying)
      ensures Finished(boot.limits, old(State()), old(journal.Contents()), r, Met(io), d, Applied(State(), journal.Contents(), out))
    {
      hide Persisted, Finished, Engine.Settled, Backups.Restored, Engine.Restore;
      ghost var st, disk := State(), journal.Contents();
      var status := Persist(r, o, accounts[r.authority.account], io);
      ghost var mid, written := State(), journal.Contents();
      if !status.Ok() {
        out := Abandon(r, o, backup, subject, status);
        AbandonedIsFinished(boot.limits, st, disk, r, Met(io), d, status, mid, written);
      } else {
        Announce(r, o);
        out := o;
        AnnouncedIsFinished(boot.limits, st, disk, r, Met(io), d, status, mid, written);
      }
    }

    method Complete(r: Request, o: Outcome, backup: Option<Backup>, subject: u64, io: Io, ghost before: EngineState,
        ghost d: Decision)
        returns (out: Outcome)
      requires 0 < boot.limits.maxRefusalLog && Holds(before, r)
      requires d.Commit? && d.after == accounts[r.authority.account] && d.outcome == o
      requires backup.Some? ==> backup.value.fenceCount <= |d.after.fences|
      requires d.fallback ==
                 if backup.None? then None else Some(Restored(d.after, backup.value, r.authority.incarnation, subject))
      modifies this, journal
      ensures journal.replaying == old(journal.replaying)
      ensures Applied(State(), journal.Contents(), out) ==
                Finish(boot.limits, before, old(journal.Contents()), r, Met(io), d)
    {
      ghost var st, a, disk := State(), accounts[r.authority.account], journal.Contents();
      out := Carry(r, o, backup, subject, io, d);
      FinishOver(boot.limits, before, a, disk, r, Met(io), d);
    }

    /** `finish_decided`: a refusal that uses up its slot. What memory holds is kept even when the refusal cannot be
        journaled. */
    method FinishDecided(r: Request, o: Outcome, s: Status, io: Io, ghost before: EngineState) returns (out: Outcome)
      requires 0 < boot.limits.maxRefusalLog
      requires Holds(before, r) && r.authority.account in before.accounts
      modifies this, journal
      ensures journal.replaying == old(journal.replaying)
      ensures Applied(State(), journal.Contents(), out) ==
              Finish(boot.limits, before, old(journal.Contents()), r, Met(io),
                     Conclude(before.accounts[r.authority.account], r, o,
                              Declined(old(accounts)[r.authority.account], s)))
    {
      var id, caller := r.authority.account, r.authority.incarnation;
      var account := accounts[id];
      var backup := Capture(account, caller, 0);
      RefusalUndone(account, caller);
      ghost var d := Conclude(before.accounts[id], r, o, Declined(account, s));
      accounts := accounts[id := CountRefused(account, caller)];
      out := Complete(r, Stamped(DecidedRefusal(o, s), accounts[id]), Some(backup), 0, io, before, d);
    }

    /** An applied operation whose effect memory already holds: count it, stamp the outcome, complete it. */
    method FinishApplied(r: Request, o: Outcome, backup: Backup, subject: u64, io: Io,
        ghost before: EngineState) returns (out: Outcome)
      requires 0 < boot.limits.maxRefusalLog
      requires Holds(before, r) && r.authority.account in before.accounts
      requires var after := CountCommitted(accounts[r.authority.account], r.authority.incarnation);
               && backup.fenceCount <= |after.fences|
               && Restored(after, backup, r.authority.incarnation, subject) ==
                    Fallback(before.accounts[r.authority.account], r)
      modifies this, journal
      ensures journal.replaying == old(journal.replaying)
      ensures Applied(State(), journal.Contents(), out) ==
              Finish(boot.limits, before, old(journal.Contents()), r, Met(io),
                     Conclude(before.accounts[r.authority.account], r, o, Changed(old(accounts)[r.authority.account])))
    {
      var id, caller := r.authority.account, r.authority.incarnation;
      ghost var d := Conclude(before.accounts[id], r, o, Changed(accounts[id]));
      accounts := accounts[id := CountCommitted(accounts[id], caller)];
      out := Complete(r, Stamped(o.(status := SUCCESS, applied := true, decided := true), accounts[id]), Some(backup),
                      subject, io, before, d);
    }

    // -------------------------------------------------------------- data operations

    /** `decide_data_locked`. */
    method DecideData(r: Request, o: Outcome, io: Io) returns (out: Outcome)
      requires 0 < boot.limits.maxRefusalLog
      requires r.authority.account in accounts && !IsControl(r.op) && !r.op.Describe?
      modifies this, journal
      ensures journal.replaying == old(journal.replaying)
      ensures var a := old(accounts)[r.authority.account];
              Applied(State(), journal.Contents(), out) ==
              Finish(boot.limits, old(State()), old(journal.Contents()), r, Met(io),
                     Conclude(a, r, o, DataEffect(boot, a, r)))
    {
      hide Engine.Finish, Engine.Conclude, Engine.ReconcileEffect, Engine.LedgerVerdict;
      if r.op.Reconcile? {
        out := DecideReconcile(r, o, io);
        return;
      }
      var account := accounts[r.authority.account];
      if account.hardExhausted && r.op.Issue? {
        out := FinishDecided(r, o, Status(EXHAUSTED_HARD, account.exhaustionCause), io, State());
        return;
      }
      if r.op.Issue? {
        out := DecideIssue(r, o, io);
        return;
      }
      ghost var before := State();
      var backup := Capture(account, r.authority.incarnation, 0);
      var plan := new LedgerPlan(account.capacity, account.totals);
      var verdict := LedgerApply(plan, account, account.config, r);
      if !verdict.Ok() {
        out := FinishDecided(r, o, verdict, io, before);
        return;
      }
      DataUndone(boot, account, r);
      accounts := accounts[r.authority.account := account.(totals := plan.totals)];
      out := FinishApplied(r, o, backup, 0, io, before);
    }

    method DecideReconcile(r: Request, o: Outcome, io: Io) returns (out: Outcome)
      requires 0 < boot.limits.maxRefusalLog
      requires r.authority.account in accounts && r.op.Reconcile?
      modifies this, journal
      ensures journal.replaying == old(journal.replaying)
      ensures var a := old(accounts)[r.authority.account];
              Applied(State(), journal.Contents(), out) ==
              Finish(boot.limits, old(State()), old(journal.Contents()), r, Met(io),
                     Conclude(a, r, o, ReconcileEffect(boot, a, r)))
    {
      hide Engine.CommitFor;
      if !Verified(boot, r) { return Refused(o, Status(RECONCILIATION_REQUIRED, 5)); }
      var id, caller := r.authority.account, r.authority.incarnation;
      var account := accounts[id];
      ghost var before := State();
      var backup := Capture(account, caller, 0);
      var records := account.incarnations;
      if caller !in records {
        records := records[caller := FreshRecord(caller, r.presenter.publisher, r.presenter.boot)];
      }
      records := records[caller := records[caller].(state := Reconciled, reconciledEpoch := account.epoch,
                                                    reconciledGeneration := account.generation, proof := r.proof)];
      DataUndone(boot, account, r);
      assert ReconcileEffect(boot, account, r) == Changed(account.(incarnations := records));
      accounts := accounts[id := account.(incarnations := records)];
      out := FinishApplied(r, o, backup, 0, io, before);
    }

    /** An Issue writes its bindings into the record as it checks them, then stages the ledger. */
    method DecideIssue(r: Request, o: Outcome, io: Io) returns (out: Outcome)
      requires 0 < boot.limits.maxRefusalLog
      requires r.authority.account in accounts && r.op.Issue? && !accounts[r.authority.account].hardExhausted
      modifies this, journal
      ensures journal.replaying == old(journal.replaying)
      ensures var a := old(accounts)[r.authority.account];
              Applied(State(), journal.Contents(), out) ==
              Finish(boot.limits, old(State()), old(journal.Contents()), r, Met(io),
                     Conclude(a, r, o, IssueEffect(a, r)))
    {
      hide Ledger.Run;
      var id, caller := r.authority.account, r.authority.incarnation;
      var account := accounts[id];
      if caller !in account.incarnations { return Refused(o, Status(UNKNOWN_INCARNATION, 3)); }
      ghost var before := State();
      var backup := Capture(account, caller, 0);
      var mismatch := Bind(r);
      assert accounts[id] == account.(incarnations := account.incarnations[caller := Bound(account.incarnations[caller],
          r).0]);
      if mismatch.Some? {
        out := FinishDecided(r, o, mismatch.value, io, before);
        return;
      }
      var plan := new LedgerPlan(accounts[id].capacity, accounts[id].totals);
      var verdict := LedgerApply(plan, accounts[id], accounts[id].config, r);
      if !verdict.Ok() {
        out := FinishDecided(r, o, verdict, io, before);
        return;
      }
      DataUndone(boot, account, r);
      accounts := accounts[id := accounts[id].(totals := plan.totals)];
      out := FinishApplied(r, o, backup, 0, io, before);
    }

    /** Write producer, consumer and grant one after another, stopping at the first that differs. */
    method Bind(r: Request) returns (mismatch: Option<Status>)
      requires r.authority.account in accounts && r.authority.incarnation in accounts[r.authority.account].incarnations
      modifies `accounts
      ensures var a, caller := old(accounts)[r.authority.account], r.authority.incarnation;
              var bound := Bound(a.incarnations[caller], r);
              && accounts == old(accounts)[r.authority.account := a.(incarnations := a.incarnations[caller := bound.0])]
              && mismatch == bound.1
    {
      var id, caller := r.authority.account, r.authority.incarnation;
      var account := accounts[id];
      var binding := account.incarnations[caller];
      mismatch := None;
      if r.producer != 0 {
        if binding.producer != 0 && binding.producer != r.producer {
          mismatch := Some(Status(PRODUCER_MISMATCH, binding.producer));
        }
        else { binding := binding.(producer := r.producer); }
      }
      if mismatch.None? && r.consumer != 0 {
        if binding.consumer != 0 && binding.consumer != r.consumer {
          mismatch := Some(Status(CONSUMER_MISMATCH, binding.consumer));
        }
        else { binding := binding.(consumer := r.consumer); }
      }
      if mismatch.None? && r.grant != 0 {
        if binding.grant != 0 && binding.grant != r.grant { mismatch := Some(Status(GRANT_MISMATCH, binding.grant)); }
        else { binding := binding.(grant := r.grant); }
      }
      accounts := accounts[id := account.(incarnations := account.incarnations[caller := binding])];
    }

    // -------------------------------------------------------------- control operations

    /** The operator's change was made (Go), refused without trace (Refuse), or refused for good (Decline). */
    ghost predicate Staged(a: AccountState, id: u64, e: Effect, v: Ruling, before: Accounts)
      reads this
    {
      match v
      case Go => e.Changed? && accounts == before[id := e.account]
      case Decline(s) => e == Declined(a, s) && accounts == before
      case Refuse(s) =>
        (e == Denied(s) && accounts == before) || (e.Leaked? && e.status == s && accounts == before[id := e.account])
    }

    /** Quarantine, move the era, demote every live incarnation. */
    method StageAdvance(r: Request) returns (v: Ruling)
      requires r.authority.account in accounts && AdvancesEra(r.op)
      modifies `accounts
      ensures var a := old(accounts)[r.authority.account];
              Staged(a, r.authority.account, AdvanceEffect(a, r), v, old(accounts))
    {
      hide Ledger.Run, Ledger.NewPlan;
      var id := r.authority.account;
      var account := accounts[id];
      var epoch := r.count;
      if r.op.Rotate? {
        if r.count <= account.epoch { return Refuse(Status(INVALID_STATE, account.epoch)); }
      } else {
        var sum := AddOverflow(account.epoch, 1);
        if sum.1 { return Refuse(Status(COUNT_OVERFLOW, account.epoch)); }
        epoch := sum.0;
      }
      var generation := AddOverflow(account.generation, 1);
      if generation.1 { return Refuse(Status(COUNT_OVERFLOW, account.generation)); }
      var plan := new LedgerPlan(account.capacity, account.totals);
      var ok := plan.QuarantineInFlight();
      if !ok { return Refuse(plan.status); }
      var demoted := DemoteAll(account.incarnations);
      accounts := accounts[id := account.(totals := plan.totals, epoch := epoch, generation := generation.0,
                                          incarnations := demoted)];
      v := Go;
    }

    /** State evidence first, then the operator's change in memory. */
    method StageControl(r: Request) returns (v: Ruling)
      requires r.authority.account in accounts && IsControl(r.op)
      modifies `accounts
      ensures var a := old(accounts)[r.authority.account];
              Staged(a, r.authority.account, ControlEffect(boot.limits, a, r), v, old(accounts))
    {
      hide Engine.AccountDigest, Ledger.Planned, Engine.FenceOf, Engine.AdvanceEffect;
      var id := r.authority.account;
      if r.expectedState != ZERO && r.expectedState != AccountDigest(accounts[id]) {
        return Refuse(Status(STALE_EVIDENCE, 1));
      }
      if AdvancesEra(r.op) {
        v := StageAdvance(r);
        return;
      }
      match ControlEffect(boot.limits, accounts[id], r) {
        case Denied(s) => v := Refuse(s);
        case Declined(_, s) => v := Decline(s);
        case Leaked(a, s) =>
          accounts := accounts[id := a];
          v := Refuse(s);
        case Changed(a) =>
          accounts := accounts[id := a];
          v := Go;
      }
    }

    /** `decide_control_locked`. */
    method DecideControl(r: Request, o: Outcome, io: Io) returns (out: Outcome)
      requires 0 < boot.limits.maxRefusalLog
      requires r.authority.account in accounts && IsControl(r.op)
      modifies this, journal
      ensures journal.replaying == old(journal.replaying)
      ensures var a := old(accounts)[r.authority.account];
              Applied(State(), journal.Contents(), out) ==
              Finish(boot.limits, old(State()), old(journal.Contents()), r, Met(io),
                     Conclude(a, r, o, ControlEffect(boot.limits, a, r)))
    {
      hide Engine.ControlEffect, Backups.Restored;
      var id, caller := r.authority.account, r.authority.incarnation;
      var account := accounts[id];
      ghost var before := State();
      var backup := Capture(account, caller, r.target);
      var v := StageControl(r);
      match v {
        case Refuse(s) => out := Refused(o, s);
        case Decline(s) =>
          assert before.accounts[id := account] == before.accounts;
          out := FinishDecided(r, o, s, io, before);
        case Go =>
          ControlUndone(boot.limits, account, r);
          out := FinishApplied(r, o, backup, r.target, io, before);
      }
    }

    // -------------------------------------------------------------- calls

    /** `create_account_locked`. */
    method CreateAccount(r: Request, o: Outcome, io: Io) returns (out: Outcome)
      requires 0 < boot.limits.maxRefusalLog && r.op.Open? && o == Blank(r)
      modifies this, journal
      ensures journal.replaying == old(journal.replaying)
      ensures Applied(State(), journal.Contents(), out) ==
              Finish(boot.limits, old(State()), old(journal.Contents()), r, Met(io),
                     OpenDecision(boot, old(accounts), r))
    {
      var id := r.authority.account;
      var refusal := OpenRefusal(boot, accounts, r);
      if refusal.Some? { return Refused(o, refusal.value); }
      ghost var before := State();
      var record := FreshRecord(r.authority.incarnation, r.presenter.publisher, r.presenter.boot).(
        state := Reconciled, reconciledEpoch := r.authority.epoch, reconciledGeneration := r.authority.generation,
        proof := r.proof, committedOps := 1);
      var account := AccountState(r.config, r.authority.epoch, r.authority.generation, r.config.capacity, NO_TOTALS,
                                  false, OK,
                                  EmptyWindow(boot.limits.maxWindow), map[record.id := record], [], [], [], 0, 1, 0);
      accounts := accounts[id := account];
      out := Complete(r, Stamped(o.(applied := true, decided := true), account), None, 0, io, before,
                      OpenDecision(boot, before.accounts, r));
    }

    /** A request against an existing account. */
    method DecideExisting(r: Request, io: Io) returns (out: Outcome)
      requires 0 < boot.limits.maxRefusalLog
      requires r.authority.account in accounts && !r.op.Open? && !r.op.Describe?
      modifies this, journal
      ensures journal.replaying == old(journal.replaying)
      ensures Applied(State(), journal.Contents(), out) ==
              Finish(boot.limits, old(State()), old(journal.Contents()), r, Met(io),
                     DecideOn(boot, old(accounts)[r.authority.account], r))
    {
      var outcome := Blank(r);
      var account := accounts[r.authority.account];
      var refusal := StandingRefusal(boot, account, r);
      if refusal.Some? { return Refused(outcome, refusal.value); }
      var place := PlaceAttempt(account, r);
      match place {
        case Duplicate(entry) =>
          out := InEra(Stamped(outcome.(status := entry.status, duplicate := true, decided := true), account), account);
        case Conflict => out := DecidedRefusal(outcome, Status(ATTEMPT_CONFLICT, r.sequence));
        case Misplaced(s) => out := Refused(outcome, s);
        case Next =>
          outcome := InEra(outcome, account);
          if IsControl(r.op) { out := DecideControl(r, outcome, io); } else { out := DecideData(r, outcome, io); }
      }
    }

    /** `apply`: one request, with the fates its two journal writes meet. */
    method Apply(r: Request, io: Io) returns (out: Outcome)
      requires Valid()
      modifies this, journal
      ensures Valid() && journal.replaying == old(journal.replaying) && recovered == old(recovered)
      ensures Applied(State(), journal.Contents(), out) ==
                Engine.Apply(boot, old(State()), old(journal.Contents()), r, Met(io))
      ensures old(Ready()) ==>
                Ready() && Applied(State(), journal.Contents(), out) ==
                  Engine.Apply(boot, old(State()), old(journal.Contents()), r, io)
    {
      hide Engine.DescribeOn, Engine.CommitFor, Engine.Settled, Engine.OpenDecision, Engine.DecideOn;
      var outcome := Blank(r);
      if !recovered { return Refused(outcome, Status(RECONCILIATION_REQUIRED, 1)); }
      if failed { return Refused(outcome, Status(IO_ERROR, 2)); }
      var malformed := Structural(boot, r);
      if malformed.Some? { return Refused(outcome, malformed.value); }
      if r.op.Open? {
        out := CreateAccount(r, outcome, io);
        return;
      }
      if r.authority.account !in accounts {
        return Refused(outcome, Status(ACCOUNT_UNKNOWN, if r.op.Describe? then 1 else 2));
      }
      if r.op.Describe? { return DescribeOn(accounts[r.authority.account], r); }
      out := DecideExisting(r, io);
    }

    // -------------------------------------------------------------- recovery

    /** `mark_ambiguous`: note an intent once per slot, evicting the oldest note at the limit. */
    method MarkAmbiguous(r: Request, sequence: nat)
      modifies `accounts
      ensures accounts == MarkedAmbiguous(boot.limits, old(accounts), r, sequence)
    {
      var id, caller := r.authority.account, r.authority.incarnation;
      if id !in accounts { return; }
      var notes := accounts[id].ambiguous;
      var i := 0;
      while i < |notes|
        invariant i <= |notes| && accounts == old(accounts)
        invariant forall j :: 0 <= j < i ==> notes[j].incarnation != caller || notes[j].sequence != r.sequence
      {
        if notes[i].incarnation == caller && notes[i].sequence == r.sequence { return; }
        i := i + 1;
      }
      if |notes| >= boot.limits.maxAmbiguous && notes != [] { notes := notes[1..]; }
      accounts := accounts[id := accounts[id].(ambiguous := notes + [NoteOf(r, sequence)])];
    }

    /** `replay_attempt`: rebuild the account, check it against the record, publish it. */
    method ReplayRecorded(t: DurableAttempt<Digest>) returns (status: Status)
      modifies `accounts, `applied, `refused
      ensures var replayed := ReplayAttempt(boot.limits, old(State()), t);
              (status.Ok() ==> replayed == Good(State())) && (!status.Ok() ==> replayed == Bad(status))
    {
      hide Engine.AccountDigest, Ledger.ComputeView, Engine.Published;
      var id := t.request.authority.account;
      var rebuilt: AccountState;
      if t.createdAccount {
        var created := Rebuilt(boot.limits, accounts, t);
        if created.Bad? { return created.status; }
        rebuilt := created.value;
      } else {
        if id !in accounts { return Corrupt(131); }
        var replayed := ReplayOnto(accounts[id], t);
        if replayed.Bad? { return replayed.status; }
        rebuilt := replayed.value;
      }
      if AccountDigest(rebuilt) != t.account.stateDigest { return Mismatch(135); }
      if rebuilt.capacity != t.account.capacity { return Mismatch(136); }
      if rebuilt.totals != t.account.totals { return Mismatch(137); }
      if rebuilt.hardExhausted != t.account.hardExhausted { return Mismatch(138); }
      if rebuilt.exhaustionCause != t.account.exhaustionCause { return Mismatch(139); }
      ghost var known := accounts;
      accounts := accounts[id := rebuilt];
      if t.outcome.decided {
        Publish(id, t.request, t.outcome.(view := ComputeView(rebuilt.capacity, rebuilt.totals)));
      }
      assert accounts == known[id := accounts[id]];
      applied, refused := t.engineApplied, t.engineRefused;
      status := SUCCESS;
    }

    /** One journal record. */
    method ReplayOne(record: JournalRecord) returns (status: Status)
      modifies this
      ensures var replayed := ReplayRecord(boot.limits, old(State()), record);
              (status.Ok() ==> replayed == Good(State())) && (!status.Ok() ==> replayed == Bad(status))
      ensures recovered == old(recovered) && failed == old(failed)
    {
      hide Recovery.MarkedAmbiguous, Recovery.RestoredState, Recovery.ReplayAttempt;
      match record {
        case IntentRecord(sequence, _, r) =>
          if !NoteReadable(r, boot.limits.maxNote) { return Corrupt(102); }
          MarkAmbiguous(r, sequence);
          status := SUCCESS;
        case SnapshotRecord(sequence, link, state) =>
          if !StateReadable(state) { return Corrupt(103); }
          status := RestoreFrom(sequence, link, state, 104);
        case AttemptRecord(sequence, link, t) =>
          if !AttemptReadable(t) { return Corrupt(106); }
          if link != OfCommit(chain, sequence, OfRequest(t.request), OutcomeDigest(t.outcome)) {
            return Mismatch(sequence);
          }
          status := ReplayRecorded(t);
          if !status.Ok() { return; }
          chain, next := link, sequence + 1;
      }
    }

    /** Replace the whole state by a snapshot's. */
    method RestoreFrom(sequence: nat, link: Digest, state: DurableState<Digest>, code: nat) returns (status: Status)
      modifies this
      ensures var restored := RestoredState(boot.limits, old(State()), sequence, link, state, code);
              (status.Ok() ==> restored == Good(State())) && (!status.Ok() ==> restored == Bad(status))
      ensures recovered == old(recovered) && failed == old(failed)
    {
      hide Recovery.RestoredAccounts;
      if state.journalSequence != sequence { return Mismatch(code); }
      var restored := RestoreAccounts(boot.limits, state.accounts);
      if restored.Bad? { return restored.status; }
      accounts, chain, next, snapshots := restored.value, link, sequence + 1, state.snapshots;
      status := SUCCESS;
    }

    /** Replay every record the snapshot file does not cover, up to the first that fails. */
    method ReplayLog(snapshot: Option<SnapshotFile>) returns (status: Status)
      requires snapshot == journal.snapshot && journal.replaying && journal.cursor == 0
      requires var start := Prefix(boot.limits, journal.Contents(), 0); start.Good? && SameEngine(State(), start.value)
      modifies this, journal
      ensures journal.Contents() == old(journal.Contents()) && journal.replaying && recovered == old(recovered)
      ensures failed == old(failed)
      ensures var replayed := Replay(boot.limits, old(journal.Contents()));
              && (status.Ok() ==> replayed.Good? && SameEngine(State(), replayed.value))
              && (!status.Ok() ==> replayed == Bad(status))
      ensures var start := Prefix(boot.limits, old(journal.Contents()), 0);
              status.Ok() && SameCounts(old(State()), start.value) ==>
                SameCounts(State(), Replay(boot.limits, old(journal.Contents())).value)
    {
      hide Replay, ReplayRecord, Prefix;
      ghost var disk := journal.Contents();
      var record := journal.NextRecord();
      while record.Some?
        invariant journal.Contents() == disk && journal.replaying && recovered == old(recovered)
        invariant failed == old(failed)
        invariant record.Some? ==> 0 < journal.cursor <= |disk.log| && record.value == disk.log[journal.cursor - 1]
        invariant record.None? ==> journal.cursor == |disk.log|
        invariant var done := Prefix(boot.limits, disk, if record.Some? then journal.cursor - 1 else journal.cursor);
                  && done.Good? && SameEngine(State(), done.value)
                  && (SameCounts(old(State()), Prefix(boot.limits, disk, 0).value) ==> SameCounts(State(), done.value))
        decreases |disk.log| - journal.cursor, if record.Some? then 1 else 0
      {
        PrefixStep(boot.limits, disk, journal.cursor - 1);
        if !Covered(snapshot, record.value) {
          ReplaySame(boot.limits, State(), Prefix(boot.limits, disk, journal.cursor - 1).value, record.value);
          status := ReplayOne(record.value);
          if !status.Ok() {
            BadSticks(boot.limits, disk, journal.cursor);
            return;
          }
        }
        record := journal.NextRecord();
      }
      PrefixAll(boot.limits, disk);
      status := SUCCESS;
    }

    /** `recover`, on a new engine or again on a used one. A latched failure stays latched, the counters of decided
        attempts are only set by the records replayed, and a recovery that fails does not withdraw an earlier one. */
    method Recover() returns (status: Status)
      requires Valid()
      modifies this, journal
      ensures journal.Contents() == old(journal.Contents()) && failed == old(failed)
      ensures var recovery := Recovery.Recover(boot.limits, old(journal.Contents()));
              && (status.Ok() ==> Ready() && recovered && recovery.Good? && SameEngine(State(), recovery.value))
              && (status.Ok() && old(applied) == 0 && old(refused) == 0 && !failed ==> recovery == Good(State()))
              && (!status.Ok() ==> recovery == Bad(status) && recovered == old(recovered))
      ensures !status.Ok() ==>
                journal.replaying == (old(journal.replaying) || Base(boot.limits, old(journal.Contents())).Good?)
    {
      hide Replay, RestoredState, StateReadable, Unreconciled;
      ghost var disk := journal.Contents();
      PrefixNone(boot.limits, disk);
      ReplayNext(boot.limits, disk);
      var snapshot := journal.snapshot;
      accounts, chain, next, snapshots := map[], ZERO, 1, 0;
      if snapshot.Some? {
        if !StateReadable(snapshot.value.state) {
          BadSticks(boot.limits, disk, 0);
          return Corrupt(100);
        }
        RestoreSame(boot.limits, State(), BLANK_ENGINE, snapshot.value);
        status := RestoreFrom(snapshot.value.sequence, snapshot.value.chain, snapshot.value.state, 101);
        if !status.Ok() {
          BadSticks(boot.limits, disk, 0);
          return;
        }
      }
      journal.BeginReplay();
      status := ReplayLog(snapshot);
      if !status.Ok() { return; }
      journal.EndReplay();
      var withdrawn := DemoteAccounts(accounts);
      accounts, recovered := withdrawn, true;
    }

    // -------------------------------------------------------------- snapshots

    /** The whole state, every account in ascending order of id. */
    method CaptureState() returns (state: DurableState<Digest>)
      requires Keyed(accounts)
      ensures CapturesAll(State(), state)
    {
      hide Snapshots.Captures;
      var captured := CaptureAccounts(accounts);
      state := DurableState(next, chain, snapshots + 1, captured, OfAccounts(seq(|captured|,
          i requires 0 <= i < |captured| => captured[i].stateDigest)));
    }

    /** `snapshot`: one record, one file, one rotation. */
    method Snapshot(fates: SnapshotIo) returns (status: Status, state: DurableState<Digest>)
      requires Valid() && Keyed(accounts)
      modifies this, journal
      ensures Valid() && journal.replaying == old(journal.replaying) && recovered == old(recovered)
      ensures Up(old(State())) ==> CapturesAll(old(State()), state)
      ensures var met := fates.(append := Meets(journal.replaying, fates.append));
              var s := SnapshotStep(Sys(boot, old(State()), old(journal.Contents()), map[], []), state, met);
              && State() == s.mem && journal.Contents() == s.disk
              && (status.Ok() <==>
                     Up(old(State())) && met.append.Written? && met.install.Written? && met.rotate.Written?)
    {
      hide Snapshots.CapturesAll, Snapshots.Rotated, Keyed;
      state := DurableState(next, chain, snapshots + 1, [], ZERO);
      if !recovered { return Status(RECONCILIATION_REQUIRED, 2), state; }
      if failed { return Status(IO_ERROR, 3), state; }
      state := CaptureState();
      var sequence := next;
      status := journal.Append(SnapshotRecord(sequence, chain, state), fates.append);
      if !status.Ok() { return; }
      next := next + 1;
      status := journal.WriteSnapshot(SnapshotFile(sequence, chain, state), fates.install);
      if !status.Ok() { return; }
      status := journal.Rotate(sequence, fates.rotate);
      if !status.Ok() { return; }
      snapshots := snapshots + 1;
    }
  }

  // ---------------------------------------------------------------- recovery, off the object

  /** The two engines agree in everything recovery rebuilds. */
  predicate SameEngine(st: EngineState, other: EngineState) {
    st.accounts == other.accounts && st.chain == other.chain && st.next == other.next && st.snapshots == other.snapshots
  }

  predicate SameCounts(st: EngineState, other: EngineState) {
    st.applied == other.applied && st.refused == other.refused
  }

  /** Replaying a record reads the accounts and the chain, and neither the flags nor the counters. */
  lemma ReplaySame(limits: Limits, st: EngineState, other: EngineState, record: JournalRecord)
    requires SameEngine(st, other)
    ensures var x, y := ReplayRecord(limits, st, record), ReplayRecord(limits, other, record);
            && x.Good? == y.Good?
            && (x.Good? ==> SameEngine(x.value, y.value) && (SameCounts(st, other) ==> SameCounts(x.value, y.value)))
            && (x.Bad? ==> x == y)
  {
    hide MarkedAmbiguous, Rebuilt, Verdict, Published, RestoredAccounts, AttemptReadable, StateReadable, ViewOf;
  }

  /** Attempt identity in the window object, then slot placement. */
  method PlaceAttempt(account: AccountState, r: Request) returns (place: Place)
    ensures place == Placement(account, r)
  {
    var window := new AttemptWindow.Of(account.window);
    var existing := window.Find(Key(r.authority.incarnation, r.sequence));
    if existing.Some? { return if existing.value.request == OfRequest(r) then Duplicate(existing.value) else Conflict; }
    var other := window.FindByAttempt(r.attempt);
    if other.Some? { return Conflict; }
    var id := r.authority.incarnation;
    var watermark: u64 := if id in account.incarnations then account.incarnations[id].lastSequence else 0;
    if r.sequence <= watermark { return Misplaced(Status(STALE_REPLAY, watermark)); }
    var expected := AddOverflow(watermark, 1);
    if expected.1 { return SpaceExhausted(watermark); }
    place := if r.sequence > expected.0 then Misplaced(Status(SEQUENCE_GAP, expected.0)) else Next;
  }

  /** `apply_replay_transition` with the ledger staged in place, then standing and counters. */
  method ReplayOnto(account: AccountState, t: DurableAttempt<Digest>) returns (result: Result<AccountState>)
    ensures result == ReplayedOn(account, t)
  {
    var caller := t.request.authority.incarnation;
    if !t.outcome.applied { return Good(if t.outcome.decided then CountRefused(account, caller) else account); }
    var moved := ReplayMove(account, t.request);
    if moved.Bad? { return moved; }
    var standing := ReplayStanding(moved.value, t.request);
    if standing.Bad? { return standing; }
    result := Good(CountCommitted(standing.value, caller));
  }

  method ReplayMove(account: AccountState, r: Request) returns (result: Result<AccountState>)
    ensures result == ReplayTransition(account, r)
  {
    if r.op.AdvanceEpoch? || r.op.Rotate? {
      result := ReplayEra(account, if r.op.Rotate? then r.count else WrapInc(account.epoch));
      return;
    }
    if r.op.Exhaust? { return Good(account.(hardExhausted := true, exhaustionCause := r.fenceCause)); }
    if r.op.ClearExhaustion? { return Good(account.(hardExhausted := false, exhaustionCause := OK)); }
    if !(RequiresCount(r.op) || r.op.SetCapacity?) { return Good(account); }
    var plan := new LedgerPlan(account.capacity, account.totals);
    var ok, code := false, 140;
    if r.op.SetCapacity? {
      code := 141;
      ok := plan.SetCapacity(r.newCapacity, account.config.maxCapacity, account.config.rules.allowGrowth);
    } else if r.op.Retire? {
      code := 143;
      ok := plan.RetireStale(r.count);
    } else if r.op.Revalidate? {
      code := 144;
      if r.decision == ToReturned {
        ok := plan.RevalidateToReturned(r.count);
      } else {
        ok := plan.RevalidateToConsumed(r.count);
      }
    } else {
      var verdict := LedgerApply(plan, account, account.config, r);
      return if verdict.Ok() then Good(account.(totals := plan.totals)) else Bad(Mismatch(code));
    }
    result := if ok then Good(account.(capacity := plan.capacity, totals := plan.totals)) else Bad(Mismatch(code));
  }

  method ReplayEra(account: AccountState, epoch: u64) returns (result: Result<AccountState>)
    ensures result == ReplayAdvance(account, epoch)
  {
    var plan := new LedgerPlan(account.capacity, account.totals);
    var ok := plan.QuarantineInFlight();
    if !ok { return Bad(Mismatch(142)); }
    var demoted := DemoteAll(account.incarnations);
    result := Good(account.(totals := plan.totals, epoch := epoch, generation := WrapInc(account.generation),
                            incarnations := demoted));
  }

  method DemoteAccounts(accounts: Accounts) returns (out: Accounts)
    ensures out == Unreconciled(accounts)
  {
    out := accounts;
    var rest := accounts.Keys;
    while rest != {}
      invariant rest <= accounts.Keys && out.Keys == accounts.Keys
      invariant forall k :: k in accounts ==> out[k] == if k in rest then accounts[k] else Unreconciled(accounts)[k]
      decreases |rest|
    {
      var k :| k in rest;
      var demoted := DemoteAll(accounts[k].incarnations);
      out := out[k := accounts[k].(incarnations := demoted)];
      rest := rest - {k};
    }
  }

  method RestoreRecords(records: seq<Record>) returns (out: map<u64, Record>)
    ensures out == RestoredRecords(records)
  {
    out := map[];
    var i := 0;
    while i < |records|
      invariant i <= |records| && out == RestoredRecords(records[..i])
    {
      assert records[..i + 1][..i] == records[..i];
      out := out[records[i].id := records[i]];
      i := i + 1;
    }
    assert records[..i] == records;
  }

  method RestoreWindow(limit: nat, slots: seq<(u64, u64)>) returns (w: Window)
    ensures w == RestoredWindow(limit, slots)
  {
    var window := new AttemptWindow(limit);
    var i := 0;
    while i < |slots|
      invariant i <= |slots| && window.Contents() == RestoredWindow(limit, slots[..i])
    {
      assert slots[..i + 1][..i] == slots[..i];
      window.Add(RestoredEntry(slots[i]));
      i := i + 1;
    }
    assert slots[..i] == slots;
    w := window.Contents();
  }

  /** `restore_durable_state`, up to the first account that does not check. */
  method RestoreAccounts(limits: Limits, ds: seq<DurableAccount<Digest>>) returns (result: Result<Accounts>)
    ensures result == RestoredAccounts(limits, ds)
    ensures result.Bad? ==> !result.status.Ok()
  {
    var accounts: Accounts := map[];
    var i := 0;
    while i < |ds|
      invariant i <= |ds| && RestoredAccounts(limits, ds[..i]) == Good(accounts)
    {
      var d := ds[i];
      assert ds[..i + 1][..i] == ds[..i];
      var window := RestoreWindow(limits.maxWindow, d.attemptWindow);
      var records := RestoreRecords(d.incarnations);
      var account := AccountState(d.config, d.epoch, d.generation, d.capacity, d.totals, d.hardExhausted,
                                  d.exhaustionCause,
                                  window, records, d.fences, d.ambiguous, [], 0, d.committedAttempts, d.refusedAttempts);
      if !CheckInvariants(account.capacity, account.totals).Ok() {
        RestoreSticks(limits, ds, i + 1);
        return Bad(Corrupt(120));
      }
      if AccountDigest(account) != d.stateDigest {
        RestoreSticks(limits, ds, i + 1);
        return Bad(Mismatch(121));
      }
      accounts := accounts[d.config.account := account];
      i := i + 1;
    }
    assert ds[..i] == ds;
    result := Good(accounts);
  }

  lemma {:induction false} RestoreSticks(limits: Limits, ds: seq<DurableAccount<Digest>>, n: nat)
    requires n <= |ds| && RestoredAccounts(limits, ds[..n]).Bad?
    ensures RestoredAccounts(limits, ds) == RestoredAccounts(limits, ds[..n])
    decreases |ds| - n
  {
    if n < |ds| {
      assert ds[..n + 1][..n] == ds[..n];
      RestoreSticks(limits, ds, n + 1);
    } else {
      assert ds[..n] == ds;
    }
  }

  /** Replay of the first `n` records. */
  function Prefix(limits: Limits, disk: Disk, n: nat): Result<EngineState>
    requires n <= |disk.log|
  {
    Replay(limits, disk.(log := disk.log[..n]))
  }

  lemma PrefixStep(limits: Limits, disk: Disk, n: nat)
    requires n < |disk.log|
    ensures Prefix(limits, disk, n + 1) == Step(limits, disk.snapshot, Prefix(limits, disk, n), disk.log[n])
  {
    assert disk.log[..n + 1][..n] == disk.log[..n];
  }

  lemma PrefixAll(limits: Limits, disk: Disk)
    ensures Prefix(limits, disk, |disk.log|) == Replay(limits, disk)
  {
    assert disk.log[..|disk.log|] == disk.log;
  }

  lemma PrefixNone(limits: Limits, disk: Disk)
    ensures Prefix(limits, disk, 0) == Base(limits, disk)
  {}

  /** Restoring a snapshot reads nothing of the engine it replaces. */
  lemma RestoreSame(limits: Limits, st: EngineState, other: EngineState, file: SnapshotFile)
    ensures var x := RestoredState(limits, st, file.sequence, file.chain, file.state, 101);
            var y := RestoredState(limits, other, file.sequence, file.chain, file.state, 101);
            && x.Good? == y.Good?
            && (x.Good? ==> SameEngine(x.value, y.value) && x.value.failed == st.failed)
            && (x.Good? && SameCounts(st, other) ==> SameCounts(x.value, y.value))
            && (x.Bad? ==> x == y)
  {
    hide RestoredAccounts;
  }

  /** A replay that failed stays failed, with the same status. */
  lemma {:induction false} BadSticks(limits: Limits, disk: Disk, n: nat)
    requires n <= |disk.log| && Prefix(limits, disk, n).Bad?
    ensures Replay(limits, disk) == Prefix(limits, disk, n)
    decreases |disk.log| - n
  {
    if n < |disk.log| {
      PrefixStep(limits, disk, n);
      BadSticks(limits, disk, n + 1);
    } else {
      PrefixAll(limits, disk);
    }
  }

  // ---------------------------------------------------------------- capture

  /** Every account and record sits at its own key. */
  ghost predicate Keyed(accounts: Accounts) {
    forall k :: k in accounts ==> accounts[k].config.account == k && forall i :: i in accounts[k].incarnations ==>
      accounts[k].incarnations[i].id == i
  }

  method ListRecords(records: map<u64, Record>) returns (listed: seq<Record>)
    requires forall i :: i in records ==> records[i].id == i
    ensures Lists(listed, records)
  {
    listed := [];
    var rest := records.Keys;
    while rest != {}
      invariant rest <= records.Keys
      invariant forall i :: 0 <= i < |listed| ==> listed[i].id in records && records[listed[i].id] == listed[i]
      invariant forall k :: k in records && k !in rest ==> records[k] in listed
      decreases |rest|
    {
      var k :| k in rest;
      listed := listed + [records[k]];
      rest := rest - {k};
    }
  }

  method Least(keys: set<u64>) returns (k: u64)
    requires keys != {}
    ensures k in keys && forall j :: j in keys ==> k <= j
  {
    k :| k in keys;
    var rest := keys - {k};
    while rest != {}
      invariant k in keys && rest <= keys && forall j :: j in keys && j !in rest ==> k <= j
      decreases |rest|
    {
      var j :| j in rest;
      if j < k { k := j; }
      rest := rest - {j};
    }
  }

  /** The keys in ascending order. */
  method Sorted(keys: set<u64>) returns (ids: seq<u64>)
    ensures forall i, j :: 0 <= i < j < |ids| ==> ids[i] < ids[j]
    ensures forall k :: k in keys <==> k in ids
  {
    ids := [];
    var rest := keys;
    while rest != {}
      invariant rest <= keys && forall k :: k in keys <==> k in rest || k in ids
      invariant forall i, j :: 0 <= i < j < |ids| ==> ids[i] < ids[j]
      invariant forall i, k :: 0 <= i < |ids| && k in rest ==> ids[i] < k
      decreases |rest|
    {
      var k := Least(rest);
      ids := ids + [k];
      rest := rest - {k};
    }
  }

  /** The accounts in ascending order of id, each with its whole state. */
  method CaptureAccounts(accounts: Accounts) returns (captured: seq<DurableAccount<Digest>>)
    requires Keyed(accounts)
    ensures forall i, j :: 0 <= i < j < |captured| ==> captured[i].config.account < captured[j].config.account
    ensures forall i :: 0 <= i < |captured| ==>
              captured[i].config.account in accounts && Captures(accounts[captured[i].config.account], captured[i])
    ensures forall k :: k in accounts ==> exists i :: 0 <= i < |captured| && captured[i].config.account == k
  {
    hide AccountDigest;
    var ids := Sorted(accounts.Keys);
    captured := [];
    while |captured| < |ids|
      invariant |captured| <= |ids|
      invariant forall i :: 0 <= i < |captured| ==> CapturesAt(accounts, ids[i], captured[i])
    {
      var id := ids[|captured|];
      assert id in ids;
      var durable := CaptureAccount(accounts[id]);
      captured := captured + [durable];
    }
    forall k | k in accounts ensures exists i :: 0 <= i < |captured| && captured[i].config.account == k {
      assert k in ids;
      var i :| 0 <= i < |ids| && ids[i] == k;
      assert CapturesAt(accounts, ids[i], captured[i]);
    }
    forall i | 0 <= i < |captured|
      ensures captured[i].config.account == ids[i] && ids[i] in accounts && Captures(accounts[ids[i]], captured[i])
    {
      assert CapturesAt(accounts, ids[i], captured[i]);
    }
  }

  ghost predicate CapturesAt(accounts: Accounts, id: u64, d: DurableAccount<Digest>) {
    d.config.account == id && id in accounts && Captures(accounts[id], d)
  }

  /** `build_durable_account` with the collections. */
  method CaptureAccount(a: AccountState) returns (d: DurableAccount<Digest>)
    requires forall i :: i in a.incarnations ==> a.incarnations[i].id == i
    ensures Captures(a, d)
  {
    var records := ListRecords(a.incarnations);
    var window := new AttemptWindow.Of(a.window);
    var slots := window.Identities();
    d := DurableOf(a).(incarnations := records, fences := a.fences, ambiguous := a.ambiguous, attemptWindow := slots);
  }
}
