/** The inductive invariant of the engine, and its preservation by every decision. */
module EngineInvariant {
  import opened Types
  import opened Digests
  import opened Ledger
  import opened Windows
  import opened Engine

  // ---------------------------------------------------------------- sums over incarnations

  ghost function Total(m: map<u64, nat>): nat
    decreases m
  {
    if m == map[] then 0 else
    var k :| k in m;
    assert m - {k} != m by { assert k !in m - {k}; }
    m[k] + Total(m - {k})
  }

  lemma {:induction false} TotalSplit(m: map<u64, nat>, k: u64)
    requires k in m
    ensures Total(m) == m[k] + Total(m - {k})
    decreases m
  {
    var x :| x in m && Total(m) == m[x] + Total(m - {x});
    if x != k {
      assert k !in m - {k} && x !in m - {x};
      TotalSplit(m - {x}, k);
      TotalSplit(m - {k}, x);
      assert m - {x} - {k} == m - {k} - {x};
    }
  }

  lemma TotalUpdate(m: map<u64, nat>, k: u64, v: nat)
    ensures Total(m[k := v]) == Total(m) - (if k in m then m[k] else 0) + v
  {
    TotalSplit(m[k := v], k);
    assert m[k := v] - {k} == m - {k};
    if k in m {
      TotalSplit(m, k);
    } else {
      assert m - {k} == m;
    }
  }

  function CommittedOps(records: map<u64, Record>): map<u64, nat> {
    map k | k in records :: records[k].committedOps
  }

  function RefusedOps(records: map<u64, Record>): map<u64, nat> {
    map k | k in records :: records[k].refusedOps
  }

  // ---------------------------------------------------------------- the invariant

  /** One incarnation's record is consistent with its account's era and fences. */
  ghost predicate RecordOk(id: u64, r: Record, epoch: u64, generation: u64, fences: seq<FenceRecord>) {
    && r.id == id && id != 0
    && (r.state == Reconciled ==> IsLive(r, epoch, generation))
    && (r.state == Fenced <==> IsFenced(fences, id))
    && r.lastSequence == r.committedOps + r.refusedOps
  }

  ghost predicate RecordsOk(records: map<u64, Record>, epoch: u64, generation: u64, fences: seq<FenceRecord>) {
    forall k :: k in records ==> RecordOk(k, records[k], epoch, generation, fences)
  }

  /** At most one fence per incarnation, and each over a known incarnation. */
  ghost predicate FencesOk(records: map<u64, Record>, fences: seq<FenceRecord>) {
    && (forall i :: 0 <= i < |fences| ==> fences[i].incarnation in records)
    && (forall i, j :: 0 <= i < j < |fences| ==> fences[i].incarnation != fences[j].incarnation)
  }

  /** The account's counters are the sums of its incarnations' counters. */
  ghost predicate TalliesOk(records: map<u64, Record>, committed: nat, refused: nat) {
    Total(CommittedOps(records)) == committed && Total(RefusedOps(records)) == refused
  }

  ghost predicate EraOk(a: AccountState) {
    && Closed(a.capacity, a.totals)
    && 0 < a.capacity <= a.config.maxCapacity
    && 1 <= a.generation <= a.epoch
  }

  ghost predicate AccountOk(limits: Limits, a: AccountState) {
    && EraOk(a)
    && RecordsOk(a.incarnations, a.epoch, a.generation, a.fences)
    && FencesOk(a.incarnations, a.fences)
    && TalliesOk(a.incarnations, a.committedAttempts, a.refusedAttempts)
    && |a.incarnations| <= limits.maxIncarnations
  }

  ghost predicate AccountsOk(limits: Limits, accounts: Accounts) {
    forall id :: id in accounts ==> accounts[id].config.account == id && AccountOk(limits, accounts[id])
  }

  ghost predicate EngineOk(limits: Limits, st: EngineState) { AccountsOk(limits, st.accounts) }

  /** The configuration under which a Fence at the fence limit cannot leave an unjournaled record. */
  predicate FencesFit(limits: Limits) {
    Clamped(limits) && limits.maxIncarnations <= limits.maxFences
  }

  // ---------------------------------------------------------------- effects keep the invariant

  lemma FencesBounded(a: AccountState)
    requires FencesOk(a.incarnations, a.fences)
    ensures |a.fences| <= |a.incarnations|
    ensures forall id :: id in a.incarnations && !IsFenced(a.fences, id) ==> |a.fences| < |a.incarnations|
  {
    var ids := set i | 0 <= i < |a.fences| :: a.fences[i].incarnation;
    DistinctFences(a.fences);
    assert ids <= a.incarnations.Keys;
    SubsetSize(ids, a.incarnations.Keys);
    forall id | id in a.incarnations && !IsFenced(a.fences, id) ensures |a.fences| < |a.incarnations| {
      SubsetSize(ids, a.incarnations.Keys - {id});
    }
  }

  lemma {:induction false} DistinctFences(fences: seq<FenceRecord>)
    requires forall i, j :: 0 <= i < j < |fences| ==> fences[i].incarnation != fences[j].incarnation
    ensures |set i | 0 <= i < |fences| :: fences[i].incarnation| == |fences|
  {
    var ids := set i | 0 <= i < |fences| :: fences[i].incarnation;
    if fences != [] {
      var shorter := fences[..|fences| - 1];
      var last := fences[|fences| - 1].incarnation;
      DistinctFences(shorter);
      var fewer := set i | 0 <= i < |shorter| :: shorter[i].incarnation;
      assert ids == fewer + {last} by {
        forall x ensures x in ids <==> x in fewer + {last} {
          if x in ids {
            var i :| 0 <= i < |fences| && fences[i].incarnation == x;
            if i < |shorter| { assert shorter[i].incarnation == x; }
          }
          if x in fewer {
            var i :| 0 <= i < |shorter| && shorter[i].incarnation == x;
            assert fences[i].incarnation == x;
          }
        }
      }
      assert last !in fewer;
    }
  }

  lemma {:induction false} SubsetSize(a: set<u64>, b: set<u64>)
    requires a <= b
    ensures |a| <= |b|
    decreases b
  {
    if b != {} {
      var x :| x in b;
      SubsetSize(a - {x}, b - {x});
    }
  }

  /** Replacing one record moves the tallies by the difference of its counters. */
  lemma TalliesUpdate(records: map<u64, Record>, k: u64, r: Record, committed: nat, refused: nat)
    requires TalliesOk(records, committed, refused)
    ensures var c := if k in records then records[k].committedOps else 0;
            var f := if k in records then records[k].refusedOps else 0;
            && 0 <= committed - c + r.committedOps && 0 <= refused - f + r.refusedOps
            && TalliesOk(records[k := r], committed - c + r.committedOps, refused - f + r.refusedOps)
  {
    assert CommittedOps(records[k := r]) == CommittedOps(records)[k := r.committedOps];
    assert RefusedOps(records[k := r]) == RefusedOps(records)[k := r.refusedOps];
    TotalUpdate(CommittedOps(records), k, r.committedOps);
    TotalUpdate(RefusedOps(records), k, r.refusedOps);
  }

  /** One consistent record replaced or added: the records stay consistent. */
  lemma PutRecord(records: map<u64, Record>, epoch: u64, generation: u64, fences: seq<FenceRecord>, k: u64, r: Record)
    requires RecordsOk(records, epoch, generation, fences) && FencesOk(records, fences)
    requires RecordOk(k, r, epoch, generation, fences)
    ensures RecordsOk(records[k := r], epoch, generation, fences) && FencesOk(records[k := r], fences)
    ensures |records[k := r]| == |records| + (if k in records then 0 else 1)
  {
    hide RecordOk;
    if k in records {
      assert records[k := r].Keys == records.Keys;
    } else {
      assert records[k := r].Keys == records.Keys + {k};
    }
  }

  /** What every effect must leave for the bookkeeping that follows it. */
  ghost predicate Prepared(limits: Limits, a: AccountState, id: u64) {
    AccountOk(limits, a) && id in a.incarnations
  }

  lemma BoundKeepsRecord(b: Record, r: Request)
    ensures var b' := Bound(b, r).0; b' == b.(producer := b'.producer, consumer := b'.consumer, grant := b'.grant)
  {}

  lemma BindKeeps(limits: Limits, a: AccountState, r: Request)
    requires Prepared(limits, a, r.authority.incarnation)
    ensures var id := r.authority.incarnation;
            Prepared(limits, a.(incarnations := a.incarnations[id := Bound(a.incarnations[id], r).0]), id)
  {
    var id := r.authority.incarnation;
    var b := Bound(a.incarnations[id], r).0;
    BoundKeepsRecord(a.incarnations[id], r);
    TalliesUpdate(a.incarnations, id, b, a.committedAttempts, a.refusedAttempts);
    PutRecord(a.incarnations, a.epoch, a.generation, a.fences, id, b);
  }

  lemma LedgerKeeps(limits: Limits, a: AccountState, r: Request)
    requires AccountOk(limits, a)
    ensures var plan := LedgerVerdict(a, r); plan.status.Ok() ==> AccountOk(limits, a.(totals := plan.totals))
  {
    var m := MoveOf(a.config, r);
    if m.Some? { StageRefinesBuckets(a.capacity, a.totals, m.value); }
  }

  lemma PlanKeeps(limits: Limits, a: AccountState, m: Move)
    requires AccountOk(limits, a)
    requires m.Resized? ==> m.maxCapacity == a.config.maxCapacity
    ensures var plan := Planned(a.capacity, a.totals, m);
            plan.status.Ok() ==> AccountOk(limits, a.(capacity := plan.capacity, totals := plan.totals))
  {
    StageRefinesBuckets(a.capacity, a.totals, m);
  }

  lemma ReconcileKeeps(boot: Boot, a: AccountState, r: Request)
    requires AccountOk(boot.limits, a) && r.authority.incarnation != 0
    requires r.op.Reconcile? && StandingRefusal(boot, a, r).None?
    ensures match ReconcileEffect(boot, a, r)
            case Changed(a') => Prepared(boot.limits, a', r.authority.incarnation)
            case Denied(_) => true
            case _ => false
  {
    hide TalliesOk;
    var id := r.authority.incarnation;
    var e := ReconcileEffect(boot, a, r);
    if e.Changed? {
      var record := e.account.incarnations[id];
      TalliesUpdate(a.incarnations, id, record, a.committedAttempts, a.refusedAttempts);
      PutRecord(a.incarnations, a.epoch, a.generation, a.fences, id, record);
    }
  }

  lemma IssueKeeps(limits: Limits, a: AccountState, r: Request)
    requires Prepared(limits, a, r.authority.incarnation)
    ensures match IssueEffect(a, r)
            case Changed(a') => Prepared(limits, a', r.authority.incarnation)
            case Declined(a', _) => Prepared(limits, a', r.authority.incarnation)
            case _ => false
  {
    var id := r.authority.incarnation;
    BindKeeps(limits, a, r);
    LedgerKeeps(limits, a.(incarnations := a.incarnations[id := Bound(a.incarnations[id], r).0]), r);
  }

  lemma DataKeeps(boot: Boot, a: AccountState, r: Request)
    requires AccountOk(boot.limits, a) && r.authority.incarnation != 0
    requires !IsControl(r.op) && StandingRefusal(boot, a, r).None?
    ensures match DataEffect(boot, a, r)
            case Changed(a') => Prepared(boot.limits, a', r.authority.incarnation)
            case Declined(a', _) => Prepared(boot.limits, a', r.authority.incarnation)
            case Leaked(_, _) => false
            case Denied(_) => true
  {
    hide AccountOk, ReconcileEffect, IssueEffect, LedgerVerdict;
    if r.op.Reconcile? {
      ReconcileKeeps(boot, a, r);
    } else if r.op.Issue? {
      IssueKeeps(boot.limits, a, r);
    } else {
      LedgerKeeps(boot.limits, a, r);
    }
  }

  lemma AdvanceKeeps(limits: Limits, a: AccountState, r: Request)
    requires AccountOk(limits, a) && AdvancesEra(r.op)
    ensures match AdvanceEffect(a, r)
            case Changed(a') => AccountOk(limits, a') && a'.incarnations.Keys == a.incarnations.Keys
            case Denied(_) => true
            case _ => false
  {
    StageRefinesBuckets(a.capacity, a.totals, Quarantined);
    DemotedTallies(a.incarnations);
    var e := AdvanceEffect(a, r);
    if e.Changed? { DemotedRecords(a, e.account.epoch, e.account.generation); }
  }

  /** With every live incarnation demoted, the records are consistent with any era. */
  lemma DemotedRecords(a: AccountState, epoch: u64, generation: u64)
    requires RecordsOk(a.incarnations, a.epoch, a.generation, a.fences) && FencesOk(a.incarnations, a.fences)
    ensures var records := Demoted(a.incarnations);
            && RecordsOk(records, epoch, generation, a.fences) && FencesOk(records, a.fences)
            && records.Keys == a.incarnations.Keys && |records| == |a.incarnations|
  {
    var records := Demoted(a.incarnations);
    assert records.Keys == a.incarnations.Keys;
    assert |records| == |records.Keys|;
  }

  lemma DemotedTallies(records: map<u64, Record>)
    ensures CommittedOps(Demoted(records)) == CommittedOps(records)
    ensures RefusedOps(Demoted(records)) == RefusedOps(records)
  {}

  lemma FencedAfterPush(fences: seq<FenceRecord>, f: FenceRecord, id: u64)
    ensures IsFenced(fences + [f], id) <==> IsFenced(fences, id) || f.incarnation == id
  {
    assert (fences + [f])[|fences|] == f;
    if IsFenced(fences, id) {
      var i :| 0 <= i < |fences| && fences[i].incarnation == id;
      assert (fences + [f])[i].incarnation == id;
    }
  }

  lemma PushFence(records: map<u64, Record>, epoch: u64, generation: u64, fences: seq<FenceRecord>, f: FenceRecord,
      r: Record)
    requires RecordsOk(records, epoch, generation, fences) && FencesOk(records, fences)
    requires !IsFenced(fences, f.incarnation)
    requires r.id == f.incarnation != 0 && r.state == Fenced && r.lastSequence == r.committedOps + r.refusedOps
    ensures RecordsOk(records[f.incarnation := r], epoch, generation, fences + [f])
    ensures FencesOk(records[f.incarnation := r], fences + [f])
    ensures |records[f.incarnation := r]| == |records| + (if f.incarnation in records then 0 else 1)
  {
    var records' := records[f.incarnation := r];
    assert records'.Keys == records.Keys + {f.incarnation};
    forall k | k in records' ensures RecordOk(k, records'[k], epoch, generation, fences + [f]) {
      FencedAfterPush(fences, f, k);
    }
  }

  lemma FenceKeeps(limits: Limits, a: AccountState, r: Request)
    requires FencesFit(limits) && AccountOk(limits, a)
    ensures match FenceEffect(limits, a, r)
            case Changed(a') => AccountOk(limits, a') && a.incarnations.Keys <= a'.incarnations.Keys
            case Declined(a', _) => a' == a
            case Leaked(_, _) => false
            case Denied(_) => true
  {
    hide TalliesOk, ComputeView;
    var e := FenceEffect(limits, a, r);
    FencesBounded(a);
    if e.Changed? {
      var record := e.account.incarnations[r.target];
      TalliesUpdate(a.incarnations, r.target, record, a.committedAttempts, a.refusedAttempts);
      PushFence(a.incarnations, a.epoch, a.generation, a.fences, FenceOf(a, r), record);
    }
  }

  lemma RetireIncarnationKeeps(limits: Limits, a: AccountState, r: Request)
    requires AccountOk(limits, a)
    ensures match RetireIncarnationEffect(a, r)
            case Changed(a') => AccountOk(limits, a') && a'.incarnations.Keys == a.incarnations.Keys
            case Declined(a', _) => a' == a
            case Leaked(_, _) => false
            case Denied(_) => true
  {
    if r.target in a.incarnations && a.incarnations[r.target].state != Fenced {
      var record := a.incarnations[r.target].(state := Retired);
      TalliesUpdate(a.incarnations, r.target, record, a.committedAttempts, a.refusedAttempts);
      PutRecord(a.incarnations, a.epoch, a.generation, a.fences, r.target, record);
    }
  }

  lemma ControlKeeps(boot: Boot, a: AccountState, r: Request)
    requires FencesFit(boot.limits) && AccountOk(boot.limits, a)
    requires r.authority.incarnation in a.incarnations
    ensures match ControlEffect(boot.limits, a, r)
            case Changed(a') => Prepared(boot.limits, a', r.authority.incarnation)
            case Declined(a', _) => a' == a
            case Leaked(_, _) => false
            case Denied(_) => true
  {
    hide RecordsOk, TalliesOk, Planned;
    match r.op
    case SetCapacity =>
      PlanKeeps(boot.limits, a, Resized(r.newCapacity, a.config.maxCapacity, a.config.rules.allowGrowth));
    case Retire => PlanKeeps(boot.limits, a, RetiredStale(r.count));
    case Revalidate =>
      PlanKeeps(boot.limits, a, RevalidatedReturned(r.count));
      PlanKeeps(boot.limits, a, RevalidatedConsumed(r.count));
    case AdvanceEpoch => AdvanceKeeps(boot.limits, a, r);
    case Rotate => AdvanceKeeps(boot.limits, a, r);
    case Fence => FenceKeeps(boot.limits, a, r);
    case RetireIncarnation => RetireIncarnationKeeps(boot.limits, a, r);
    case _ =>
  }

  // ---------------------------------------------------------------- bookkeeping and publication

  /** Counting a decision and moving the watermark to its slot is one replacement of the caller's record. */
  lemma Tallied(limits: Limits, a: AccountState, r: Request, o: Outcome)
    requires Prepared(limits, a, r.authority.incarnation)
    requires r.sequence == Watermark(a, r.authority.incarnation) + 1
    ensures var id := r.authority.incarnation;
            AccountOk(limits, Published(if o.applied then CountCommitted(a, id) else CountRefused(a, id), r, o))
  {
    var id := r.authority.incarnation;
    var counted := if o.applied then CountCommitted(a, id) else CountRefused(a, id);
    var record := counted.incarnations[id].(lastSequence := r.sequence);
    assert Marked(counted.incarnations, id, r.sequence) == a.incarnations[id := record];
    TalliesUpdate(a.incarnations, id, record, a.committedAttempts, a.refusedAttempts);
    PutRecord(a.incarnations, a.epoch, a.generation, a.fences, id, record);
  }

  /** The refusal ring is not part of the invariant. */
  lemma NotedKeeps(limits: Limits, a: AccountState, r: Request, o: Outcome)
    requires AccountOk(limits, a)
    ensures AccountOk(limits, Noted(limits, a, r, o))
  {}

  /** Records that differ only by some demotions are as consistent, and count the same. */
  lemma DemotionsKeep(records: map<u64, Record>, records': map<u64, Record>, a: AccountState)
    requires RecordsOk(records, a.epoch, a.generation, a.fences) && FencesOk(records, a.fences)
    requires TalliesOk(records, a.committedAttempts, a.refusedAttempts)
    requires records'.Keys == records.Keys
    requires forall k :: k in records ==>
               || records'[k] == records[k]
               || (records[k].state == Reconciled && records'[k] == records[k].(state := Unknown))
    ensures RecordsOk(records', a.epoch, a.generation, a.fences) && FencesOk(records', a.fences)
    ensures TalliesOk(records', a.committedAttempts, a.refusedAttempts) && |records'| == |records|
  {
    hide RecordOk, IsFenced, Total;
    forall k | k in records' ensures RecordOk(k, records'[k], a.epoch, a.generation, a.fences) {
      DemotionKeeps(k, records[k], records'[k], a.epoch, a.generation, a.fences);
    }
    assert CommittedOps(records') == CommittedOps(records);
    assert RefusedOps(records') == RefusedOps(records);
    assert |records'| == |records'.Keys|;
  }

  lemma DemotionKeeps(k: u64, b: Record, b': Record, epoch: u64, generation: u64, fences: seq<FenceRecord>)
    requires RecordOk(k, b, epoch, generation, fences)
    requires b' == b || (b.state == Reconciled && b' == b.(state := Unknown))
    ensures RecordOk(k, b', epoch, generation, fences)
  {}

  lemma FallbackKeeps(limits: Limits, a: AccountState, r: Request)
    requires AccountOk(limits, a)
    ensures AccountOk(limits, Fallback(a, r))
  {
    if AdvancesEra(r.op) {
      DemotionsKeep(a.incarnations, Fallback(a, r).incarnations, a);
    }
  }

  lemma DataKeepsWatermarks(boot: Boot, a: AccountState, r: Request, id: u64)
    requires !IsControl(r.op)
    ensures var e := DataEffect(boot, a, r);
            (e.Changed? || e.Declined?) ==> Watermark(e.account, id) == Watermark(a, id)
  {
    if r.op.Issue? && r.authority.incarnation in a.incarnations {
      BoundKeepsRecord(a.incarnations[r.authority.incarnation], r);
    }
  }

  lemma ControlKeepsWatermarks(limits: Limits, a: AccountState, r: Request, id: u64)
    requires IsControl(r.op)
    ensures var e := ControlEffect(limits, a, r);
            (e.Changed? || e.Declined?) ==> Watermark(e.account, id) == Watermark(a, id)
  {
    hide Planned, FenceOf, AccountDigest;
  }

  /** Effects change no watermark, so the slot they were admitted at is still the next one. */
  lemma EffectKeepsWatermarks(boot: Boot, a: AccountState, r: Request, e: Effect, id: u64)
    requires e == if IsControl(r.op) then ControlEffect(boot.limits, a, r) else DataEffect(boot, a, r)
    ensures (e.Changed? || e.Declined?) ==> Watermark(e.account, id) == Watermark(a, id)
  {
    if IsControl(r.op) { ControlKeepsWatermarks(boot.limits, a, r, id); } else { DataKeepsWatermarks(boot, a, r, id); }
  }

  /** An effect that is journaled leaves an invariant account; its leak and denial leave none. */
  ghost predicate EffectFits(limits: Limits, a: AccountState, r: Request, e: Effect) {
    match e
    case Changed(a') => Prepared(limits, a', r.authority.incarnation)
    case Declined(a', _) => Prepared(limits, a', r.authority.incarnation)
    case Leaked(_, _) => false
    case Denied(_) => true
  }

  lemma ConcludeKeeps(limits: Limits, a: AccountState, r: Request, o: Outcome, e: Effect)
    requires AccountOk(limits, a) && EffectFits(limits, a, r, e)
    requires (e.Changed? || e.Declined?) ==> r.sequence == Watermark(e.account, r.authority.incarnation) + 1
    ensures match Conclude(a, r, o, e)
            case Reply(_) => true
            case Leak(_, _) => false
            case Commit(after, fallback, p) =>
              AccountOk(limits, Settled(limits, after, r, p)) && fallback.Some? && AccountOk(limits, fallback.value)
  {
    var d := Conclude(a, r, o, e);
    if d.Commit? {
      FallbackKeeps(limits, a, r);
      Tallied(limits, e.account, r, d.outcome);
      NotedKeeps(limits, Published(d.after, r, d.outcome), r, d.outcome);
    }
  }

  lemma EffectKeeps(boot: Boot, a: AccountState, r: Request, e: Effect)
    requires FencesFit(boot.limits) && AccountOk(boot.limits, a) && r.authority.incarnation != 0
    requires StandingRefusal(boot, a, r).None?
    requires e == if IsControl(r.op) then ControlEffect(boot.limits, a, r) else DataEffect(boot, a, r)
    ensures EffectFits(boot.limits, a, r, e)
  {
    if IsControl(r.op) { ControlKeeps(boot, a, r); } else { DataKeeps(boot, a, r); }
  }

  /** A decision on an existing account keeps the invariant, committed or rolled back, and never leaks. */
  lemma DecisionKeepsAccount(boot: Boot, a: AccountState, r: Request)
    requires FencesFit(boot.limits) && AccountOk(boot.limits, a) && r.authority.incarnation != 0
    ensures match DecideOn(boot, a, r)
            case Reply(_) => true
            case Leak(_, _) => false
            case Commit(after, fallback, o) =>
              && AccountOk(boot.limits, Settled(boot.limits, after, r, o))
              && fallback.Some? && AccountOk(boot.limits, fallback.value)
  {
    hide AccountOk, Settled, ControlEffect, DataEffect, Stamped, Conclude;
    if StandingRefusal(boot, a, r).None? && Placement(a, r).Next? {
      var e := if IsControl(r.op) then ControlEffect(boot.limits, a, r) else DataEffect(boot, a, r);
      EffectKeeps(boot, a, r, e);
      EffectKeepsWatermarks(boot, a, r, e, r.authority.incarnation);
      ConcludeKeeps(boot.limits, a, r, InEra(Blank(r), a), e);
    }
  }

  lemma OpenedKeeps(boot: Boot, accounts: Accounts, r: Request, o: Outcome)
    requires Clamped(boot.limits) && Structural(boot, r).None? && OpenRefusal(boot, accounts, r).None? && o.applied
    ensures AccountOk(boot.limits, Settled(boot.limits, Opened(boot.limits, r), r, o))
  {
    hide RecordsOk, FencesOk, TalliesOk, EraOk, Insert, OpenRefusal;
    var id := r.authority.incarnation;
    var a := Opened(boot.limits, r);
    var none: map<u64, Record> := map[];
    var record := OpenerRecord(r).(lastSequence := r.sequence);
    assert Marked(a.incarnations, id, r.sequence) == none[id := record];
    NoRecords(a.epoch, a.generation);
    OpenerOk(boot, accounts, r);
    TalliesUpdate(none, id, record, 0, 0);
    PutRecord(none, a.epoch, a.generation, a.fences, id, record);
    OpenedEra(boot, accounts, r);
    EraSettles(boot.limits, a, r, o);
  }

  lemma NoRecords(epoch: u64, generation: u64)
    ensures var none: map<u64, Record> := map[];
            RecordsOk(none, epoch, generation, []) && FencesOk(none, []) && TalliesOk(none, 0, 0)
  {
    var none: map<u64, Record> := map[];
    assert CommittedOps(none) == map[] && RefusedOps(none) == map[];
  }

  lemma OpenerOk(boot: Boot, accounts: Accounts, r: Request)
    requires Structural(boot, r).None? && OpenRefusal(boot, accounts, r).None?
    ensures RecordOk(r.authority.incarnation, OpenerRecord(r).(lastSequence := r.sequence),
                     r.authority.epoch, r.authority.generation, [])
  {}

  lemma EraSettles(limits: Limits, a: AccountState, r: Request, o: Outcome)
    ensures EraOk(Settled(limits, a, r, o)) == EraOk(a)
  {
    hide Closed;
  }

  lemma OpenedEra(boot: Boot, accounts: Accounts, r: Request)
    requires OpenRefusal(boot, accounts, r).None?
    ensures EraOk(Opened(boot.limits, r))
  {}

  lemma EffectKeepsConfig(boot: Boot, a: AccountState, r: Request, e: Effect)
    requires e == if IsControl(r.op) then ControlEffect(boot.limits, a, r) else DataEffect(boot, a, r)
    ensures !e.Denied? ==> e.account.config == a.config
  {
    hide Planned, FenceOf, LedgerVerdict;
  }

  lemma DecisionKeepsConfig(boot: Boot, a: AccountState, r: Request)
    ensures match DecideOn(boot, a, r)
            case Reply(_) => true
            case Leak(a', _) => a'.config == a.config
            case Commit(after, fallback, _) =>
              after.config == a.config && fallback.Some? && fallback.value.config == a.config
  {
    var e := if IsControl(r.op) then ControlEffect(boot.limits, a, r) else DataEffect(boot, a, r);
    EffectKeepsConfig(boot, a, r, e);
  }

  /** What a decision leaves in the accounts, committed or rolled back, is invariant and sits at its own key. */
  lemma DecisionKeeps(boot: Boot, st: EngineState, r: Request)
    requires FencesFit(boot.limits) && EngineOk(boot.limits, st)
    ensures match Decide(boot, st, r)
            case Reply(_) => true
            case Leak(_, _) => false
            case Commit(after, fallback, o) =>
              && AccountOk(boot.limits, Settled(boot.limits, after, r, o))
              && after.config.account == r.authority.account
              && (fallback.Some? ==>
                     AccountOk(boot.limits, fallback.value) && fallback.value.config.account == r.authority.account)
  {
    hide AccountOk, Settled, DecideOn;
    var d := Decide(boot, st, r);
    if st.recovered && !st.failed && Structural(boot, r).None? {
      var id := r.authority.account;
      if r.op.Open? {
        if d.Commit? { OpenedKeeps(boot, st.accounts, r, d.outcome); }
      } else if id in st.accounts && !r.op.Describe? {
        DecisionKeepsAccount(boot, st.accounts[id], r);
        DecisionKeepsConfig(boot, st.accounts[id], r);
      }
    }
  }

  lemma SettledConfig(limits: Limits, a: AccountState, r: Request, o: Outcome)
    ensures Settled(limits, a, r, o).config == a.config
  {}

  /** Every call of `apply`, whatever becomes of its journal writes, keeps the engine invariant. */
  lemma ApplyKeepsEngine(boot: Boot, st: EngineState, disk: Disk, r: Request, io: Io)
    requires FencesFit(boot.limits) && EngineOk(boot.limits, st)
    ensures EngineOk(boot.limits, Apply(boot, st, disk, r, io).state)
  {
    hide Decide, Finish;
    DecisionKeeps(boot, st, r);
    FinishKeeps(boot.limits, st, disk, r, io, Decide(boot, st, r));
  }

  /** The accounts a decision can leave behind. */
  lemma FinishAccounts(limits: Limits, st: EngineState, disk: Disk, r: Request, io: Io, d: Decision)
    ensures var accounts' := Finish(limits, st, disk, r, io, d).state.accounts;
            match d
            case Reply(_) => accounts' == st.accounts
            case Leak(a, _) => accounts' == st.accounts[r.authority.account := a]
            case Commit(after, fallback, o) =>
              accounts' == if io == ALL_WRITTEN then st.accounts[r.authority.account := Settled(limits, after, r, o)]
                           else Restore(st.accounts, r.authority.account, fallback)
  {}

  lemma PutAccount(limits: Limits, accounts: Accounts, id: u64, a: AccountState)
    requires AccountsOk(limits, accounts) && AccountOk(limits, a) && a.config.account == id
    ensures AccountsOk(limits, accounts[id := a])
  {}

  lemma FinishKeeps(limits: Limits, st: EngineState, disk: Disk, r: Request, io: Io, d: Decision)
    requires AccountsOk(limits, st.accounts) && !d.Leak?
    requires d.Commit? ==>
               && AccountOk(limits, Settled(limits, d.after, r, d.outcome))
               && d.after.config.account == r.authority.account
               && (d.fallback.Some? ==>
                      AccountOk(limits, d.fallback.value) && d.fallback.value.config.account == r.authority.account)
    ensures AccountsOk(limits, Finish(limits, st, disk, r, io, d).state.accounts)
  {
    FinishAccounts(limits, st, disk, r, io, d);
    if d.Commit? {
      var id := r.authority.account;
      SettledConfig(limits, d.after, r, d.outcome);
      PutAccount(limits, st.accounts, id, Settled(limits, d.after, r, d.outcome));
      if d.fallback.Some? { PutAccount(limits, st.accounts, id, d.fallback.value); }
    }
  }
}
