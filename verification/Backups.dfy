/** The constant-space backup of an account (src/engine.cpp:359-429) and what restoring it undoes. */
module Backups {
  import opened Types
  import opened Digests
  import opened Ledger
  import opened Windows
  import opened Engine
  import opened EngineInvariant
  import opened LiveReplay
  import opened Decisions

  datatype Backup = Backup(
    totals: CreditTotals, capacity: u64, hardExhausted: bool, exhaustionCause: Reason, epoch: u64, generation: u64,
    committedAttempts: nat, refusedAttempts: nat, fenceCount: nat, caller: Option<Record>, target: Option<Record>)

  function Found(records: map<u64, Record>, id: u64): Option<Record> {
    if id in records then Some(records[id]) else None
  }

  /** `capture_backup`. */
  function Capture(a: AccountState, caller: u64, subject: u64): Backup {
    Backup(a.totals, a.capacity, a.hardExhausted, a.exhaustionCause, a.epoch, a.generation,
           a.committedAttempts, a.refusedAttempts, |a.fences|, Found(a.incarnations, caller),
           if subject != 0 && subject != caller then Found(a.incarnations, subject) else Found(a.incarnations, caller))
  }

  function Put(records: map<u64, Record>, id: u64, record: Option<Record>): map<u64, Record> {
    match record
    case Some(r) => records[id := r]
    case None => records - {id}
  }

  /** `restore_backup`. */
  function Restored(a: AccountState, b: Backup, caller: u64, subject: u64): AccountState
    requires b.fenceCount <= |a.fences|
  {
    var records := Put(a.incarnations, caller, b.caller);
    a.(totals := b.totals, capacity := b.capacity, hardExhausted := b.hardExhausted,
       exhaustionCause := b.exhaustionCause,
       epoch := b.epoch, generation := b.generation, committedAttempts := b.committedAttempts,
       refusedAttempts := b.refusedAttempts, fences := a.fences[..b.fenceCount],
       incarnations := if subject != 0 && subject != caller then Put(records, subject, b.target) else records)
  }

  // ---------------------------------------------------------------- what a restore undoes

  predicate Spared(caller: u64, subject: u64, k: u64) { k == caller || (subject != 0 && k == subject) }

  /** The parts of an account no effect touches, and what the others become outside the records a backup keeps. */
  ghost predicate Reaches(a: AccountState, b: AccountState, caller: u64, subject: u64, demotes: bool) {
    && b.config == a.config && b.window == a.window && b.ambiguous == a.ambiguous
    && b.refusals == a.refusals && b.refusalCursor == a.refusalCursor
    && |a.fences| <= |b.fences| && b.fences[..|a.fences|] == a.fences
    && forall k :: !Spared(caller, subject, k) ==>
         && (k in b.incarnations <==> k in a.incarnations)
         && (k in a.incarnations ==>
                b.incarnations[k] == if demotes then Demoted(a.incarnations)[k] else a.incarnations[k])
  }

  lemma DataReaches(boot: Boot, a: AccountState, r: Request)
    requires !IsControl(r.op) && DataEffect(boot, a, r).Changed?
    ensures Reaches(a, DataEffect(boot, a, r).account, r.authority.incarnation, 0, false)
  {
    hide LedgerVerdict, Verified, Bound;
    assert a.fences[..|a.fences|] == a.fences;
  }

  lemma AdvanceReaches(a: AccountState, r: Request)
    requires AdvanceEffect(a, r).Changed?
    ensures Reaches(a, AdvanceEffect(a, r).account, r.authority.incarnation, r.target, true)
  {
    hide Planned;
    assert a.fences[..|a.fences|] == a.fences;
  }

  lemma FenceReaches(limits: Limits, a: AccountState, r: Request)
    requires FenceEffect(limits, a, r).Changed?
    ensures Reaches(a, FenceEffect(limits, a, r).account, r.authority.incarnation, r.target, false)
  {
    hide FenceOf;
    assert (a.fences + [FenceOf(a, r)])[..|a.fences|] == a.fences;
  }

  lemma RetirementReaches(a: AccountState, r: Request)
    requires RetireIncarnationEffect(a, r).Changed?
    ensures Reaches(a, RetireIncarnationEffect(a, r).account, r.authority.incarnation, r.target, false)
  {
    assert a.fences[..|a.fences|] == a.fences;
  }

  lemma PlanReaches(a: AccountState, m: Move, caller: u64, subject: u64)
    requires PlanEffect(a, m).Changed?
    ensures Reaches(a, PlanEffect(a, m).account, caller, subject, false)
  {
    hide Planned;
    assert a.fences[..|a.fences|] == a.fences;
  }

  lemma ControlReaches(limits: Limits, a: AccountState, r: Request)
    requires IsControl(r.op) && ControlEffect(limits, a, r).Changed?
    ensures Reaches(a, ControlEffect(limits, a, r).account, r.authority.incarnation, r.target, AdvancesEra(r.op))
  {
    hide PlanEffect, AdvanceEffect, FenceEffect, RetireIncarnationEffect;
    assert a.fences[..|a.fences|] == a.fences;
    var caller := r.authority.incarnation;
    match r.op
    case AdvanceEpoch => AdvanceReaches(a, r);
    case Rotate => AdvanceReaches(a, r);
    case Fence => FenceReaches(limits, a, r);
    case RetireIncarnation => RetirementReaches(a, r);
    case SetCapacity => PlanReaches(a, Resized(r.newCapacity, a.config.maxCapacity, a.config.rules.allowGrowth), caller,
                                    r.target);
    case Retire => PlanReaches(a, RetiredStale(r.count), caller, r.target);
    case Revalidate =>
      PlanReaches(a, if r.decision == ToReturned then RevalidatedReturned(r.count) else RevalidatedConsumed(r.count),
                  caller, r.target);
    case _ =>
  }

  /** The incarnations a restore leaves. */
  function Spoiled(a: AccountState, caller: u64, subject: u64, demotes: bool): AccountState {
    if demotes then a.(incarnations := map k | k in a.incarnations ::
                         if Spared(caller, subject, k) then a.incarnations[k] else Demoted(a.incarnations)[k])
    else a
  }

  lemma RestoreRecords(a: AccountState, b: AccountState, caller: u64, subject: u64, demotes: bool)
    requires Reaches(a, b, caller, subject, demotes)
    ensures Restored(b, Capture(a, caller, subject), caller, subject).incarnations ==
              Spoiled(a, caller, subject, demotes).incarnations
  {}

  lemma RestoreUndoes(a: AccountState, b: AccountState, caller: u64, subject: u64, demotes: bool)
    requires Reaches(a, b, caller, subject, demotes)
    ensures Restored(b, Capture(a, caller, subject), caller, subject) == Spoiled(a, caller, subject, demotes)
  {
    RestoreRecords(a, b, caller, subject, demotes);
  }

  /** After a counted data operation, the restore gives back the account it started from. */
  lemma DataUndone(boot: Boot, a: AccountState, r: Request)
    requires !IsControl(r.op) && DataEffect(boot, a, r).Changed?
    ensures var id := r.authority.incarnation;
            var after := CountCommitted(DataEffect(boot, a, r).account, id);
            && |a.fences| <= |after.fences|
            && Restored(after, Capture(a, id, 0), id, 0) == a == Fallback(a, r)
  {
    var id := r.authority.incarnation;
    DataReaches(boot, a, r);
    RestoreUndoes(a, CountCommitted(DataEffect(boot, a, r).account, id), id, 0, false);
  }

  /** After a counted control operation, the restore gives back all but the demotions of a failed era advance. */
  lemma ControlUndone(limits: Limits, a: AccountState, r: Request)
    requires IsControl(r.op) && ControlEffect(limits, a, r).Changed?
    ensures var id := r.authority.incarnation;
            var after := CountCommitted(ControlEffect(limits, a, r).account, id);
            |a.fences| <= |after.fences| && Restored(after, Capture(a, id, r.target), id, r.target) == Fallback(a, r)
  {
    var id := r.authority.incarnation;
    ControlReaches(limits, a, r);
    RestoreUndoes(a, CountCommitted(ControlEffect(limits, a, r).account, id), id, r.target, AdvancesEra(r.op));
    assert Spoiled(a, id, r.target, AdvancesEra(r.op)) == Fallback(a, r);
  }

  /** A counted refusal is undone exactly. */
  lemma RefusalUndone(a: AccountState, id: u64)
    ensures Restored(CountRefused(a, id), Capture(a, id, 0), id, 0) == a
  {
    assert a.fences[..|a.fences|] == a.fences;
    assert Reaches(a, a, id, 0, false);
    RestoreUndoes(a, CountRefused(a, id), id, 0, false);
  }

  /** Somebody other than the caller and the target is live. */
  ghost predicate OthersLive(a: AccountState, r: Request) {
    exists k :: k in a.incarnations && a.incarnations[k].state == Reconciled && !Spared(r.authority.incarnation,
        r.target, k)
  }

  lemma IssueDeclinedIff(a: AccountState, r: Request)
    requires Closed(a.capacity, a.totals) && NewlyBinds(a, r)
    ensures IssueEffect(a, r).Declined? <==> IssueRefused(a, r)
    ensures IssueEffect(a, r).Declined? || IssueEffect(a, r).Changed?
  {
    hide Run, NewPlan, Closed, BucketsOf, Guard, Moved, RecheckPasses;
    StageRefinesBuckets(a.capacity, a.totals, Issued(r.count, a.config.rules.minIssue, a.config.rules.maxIssue));
  }

  /** The rollback of a decision whose commit could not be made durable is exact if and only if the request is not an
      era advance while somebody else is live, nor an Issue that newly binds a field and is going to be refused. */
  lemma RollbackExactIff(boot: Boot, a: AccountState, r: Request)
    requires Closed(a.capacity, a.totals) && DecideOn(boot, a, r).Commit?
    ensures DecideOn(boot, a, r).fallback == Some(a) <==>
              !(AdvancesEra(r.op) && OthersLive(a, r)) && !(NewlyBinds(a, r) && IssueRefused(a, r))
  {
    CommitIsAdmitted(boot, a, r);
    var e := EffectOf(boot, a, r);
    if NewlyBinds(a, r) { IssueDeclinedIff(a, r); }
    if e.Declined? { DeclinedKeeps(boot, a, r, e); } else { FallbackExactIff(a, r); }
  }

  lemma FallbackExactIff(a: AccountState, r: Request)
    ensures Fallback(a, r) == a <==> !(AdvancesEra(r.op) && OthersLive(a, r))
  {
    if AdvancesEra(r.op) {
      if OthersLive(a, r) {
        var k :| k in a.incarnations && a.incarnations[k].state == Reconciled && !Spared(r.authority.incarnation,
            r.target, k);
        assert Fallback(a, r).incarnations[k].state == Unknown;
      } else {
        assert Fallback(a, r).incarnations == a.incarnations;
      }
    }
  }
}
