/** What one admitted decision does to slots, fences, standing and credit: the facts the run theorems are built on. */
module Decisions {
  import opened Types
  import opened Digests
  import opened Ledger
  import opened Windows
  import opened Engine
  import opened EngineInvariant

  function EffectOf(boot: Boot, a: AccountState, r: Request): Effect {
    if IsControl(r.op) then ControlEffect(boot.limits, a, r) else DataEffect(boot, a, r)
  }

  /** A request against an existing account is decided afresh only past every test of standing and placement. */
  lemma CommitIsAdmitted(boot: Boot, a: AccountState, r: Request)
    requires DecideOn(boot, a, r).Commit?
    ensures StandingRefusal(boot, a, r).None? && Placement(a, r).Next?
    ensures DecideOn(boot, a, r) == Conclude(a, r, InEra(Blank(r), a), EffectOf(boot, a, r))
    ensures var e, d := EffectOf(boot, a, r), DecideOn(boot, a, r);
            (e.Changed? && d.outcome.applied) || (e.Declined? && !d.outcome.applied)
    ensures r.sequence == Watermark(a, r.authority.incarnation) + 1
    ensures r.authority.epoch == a.epoch && r.authority.generation == a.generation
    ensures r.authority.domain == a.config.domain
  {}

  /** A fresh decision is an Open of an absent account at slot 1, or a decision on an account in memory. */
  lemma CommitForm(boot: Boot, st: EngineState, r: Request, d: Decision)
    requires d == Decide(boot, st, r) && d.Commit?
    ensures Up(st) && r.authority.incarnation != 0 && r.sequence != 0 && !r.op.Describe?
    ensures if r.op.Open? then
              && r.authority.account !in st.accounts && r.sequence == 1 && r.authority.epoch == 1
              && r.authority.generation == 1
              && d.after == Opened(boot.limits, r) && d.outcome.applied
            else
              r.authority.account in st.accounts && d == DecideOn(boot, st.accounts[r.authority.account], r)
  {
    hide Opened, DecideOn, ViewOf, AccountDigest;
  }

  /** While its era is current, the repeat of a request the window remembers gets the recorded status and changes
      nothing. */
  lemma RepeatIsAbsorbed(boot: Boot, a: AccountState, r: Request)
    requires StandingRefusal(boot, a, r).None?
    requires Key(r.authority.incarnation, r.sequence) in a.window.byKey
    requires a.window.byKey[Key(r.authority.incarnation, r.sequence)].request == OfRequest(r)
    ensures var d := DecideOn(boot, a, r);
            && d.Reply? && d.outcome.duplicate && !d.outcome.applied
            && d.outcome.status == a.window.byKey[Key(r.authority.incarnation, r.sequence)].status
  {}

  // ---------------------------------------------------------------- slots

  lemma MarkedWatermarks(limits: Limits, a: AccountState, r: Request, o: Outcome, k: u64)
    requires r.authority.incarnation in a.incarnations
    ensures var id := r.authority.incarnation;
            var counted := if o.applied then CountCommitted(a, id) else CountRefused(a, id);
            Watermark(Settled(limits, counted, r, o), k) == if k == id then r.sequence else Watermark(a, k)
  {}

  /** A decision moves the watermark of its own incarnation to its slot, and no other. */
  lemma SettledWatermarks(boot: Boot, a: AccountState, r: Request, k: u64)
    requires AccountOk(boot.limits, a) && FencesFit(boot.limits) && r.authority.incarnation != 0
    requires DecideOn(boot, a, r).Commit?
    ensures var d := DecideOn(boot, a, r);
            Watermark(Settled(boot.limits, d.after, r, d.outcome), k) ==
            if k == r.authority.incarnation then r.sequence else Watermark(a, k)
  {
    var e, d := EffectOf(boot, a, r), DecideOn(boot, a, r);
    CommitIsAdmitted(boot, a, r);
    EffectKeepsWatermarks(boot, a, r, e, k);
    EffectKeeps(boot, a, r, e);
    MarkedWatermarks(boot.limits, e.account, r, d.outcome, k);
  }

  // ---------------------------------------------------------------- fences and retirements

  /** The incarnation is under a fence, or retired. */
  predicate Barred(a: AccountState, id: u64) {
    IsFenced(a.fences, id) || (id in a.incarnations && a.incarnations[id].state == Retired)
  }

  /** The operation, once applied, bars `k` from the account for good. */
  predicate Excludes(r: Request, k: u64) { (r.op.Fence? || r.op.RetireIncarnation?) && r.target == k }

  lemma DataBars(boot: Boot, a: AccountState, r: Request, id: u64)
    requires var e := DataEffect(boot, a, r); !IsControl(r.op) && (e.Changed? || e.Declined?)
    requires Barred(a, id) && id != r.authority.incarnation
    ensures Barred(DataEffect(boot, a, r).account, id)
  {
    hide LedgerVerdict, Bound, Verified;
  }

  lemma FenceBars(limits: Limits, a: AccountState, r: Request, id: u64)
    requires var e := FenceEffect(limits, a, r); r.op.Fence? && (e.Changed? || e.Declined?)
    ensures var e := FenceEffect(limits, a, r);
            (Barred(a, id) ==> Barred(e.account, id)) && (e.Changed? && Excludes(r, id) ==> Barred(e.account, id))
  {
    hide ViewOf, WrapSub;
    FencedAfterPush(a.fences, FenceOf(a, r), id);
  }

  lemma ControlBars(limits: Limits, a: AccountState, r: Request, id: u64)
    requires var e := ControlEffect(limits, a, r); IsControl(r.op) && (e.Changed? || e.Declined?)
    ensures var e := ControlEffect(limits, a, r);
            (Barred(a, id) ==> Barred(e.account, id)) && (e.Changed? && Excludes(r, id) ==> Barred(e.account, id))
  {
    hide Planned, FenceEffect, AccountDigest;
    if r.op.Fence? { FenceBars(limits, a, r, id); }
  }

  lemma SettledFields(limits: Limits, a: AccountState, r: Request, o: Outcome, id: u64)
    ensures var s := Settled(limits, (if o.applied then CountCommitted(a, id) else CountRefused(a, id)), r, o);
            && s.fences == a.fences && s.capacity == a.capacity && s.totals == a.totals && s.epoch == a.epoch
            && s.generation == a.generation
  {}

  /** Whoever a decision is for stands: neither fenced nor retired. */
  lemma DecidedStands(boot: Boot, a: AccountState, r: Request)
    requires AccountOk(boot.limits, a) && StandingRefusal(boot, a, r).None?
    ensures !Barred(a, r.authority.incarnation)
  {
    if !r.op.Reconcile? {
      assert RecordOk(r.authority.incarnation, a.incarnations[r.authority.incarnation], a.epoch, a.generation,
                      a.fences);
    }
  }

  /** No decision lifts a fence or a retirement, an applied Fence or RetireIncarnation bars its target, and no decision
      is for a barred caller. */
  lemma SettledBars(boot: Boot, a: AccountState, r: Request, id: u64)
    requires AccountOk(boot.limits, a) && DecideOn(boot, a, r).Commit?
    ensures var d := DecideOn(boot, a, r);
            var s := Settled(boot.limits, d.after, r, d.outcome);
            && (Barred(a, id) ==> Barred(s, id))
            && (d.outcome.applied && Excludes(r, id) ==> Barred(s, id))
            && !Barred(a, r.authority.incarnation)
  {
    hide AccountOk, StandingRefusal, Placement, ControlEffect, DataEffect, DecideOn, Settled, Barred;
    var e, d := EffectOf(boot, a, r), DecideOn(boot, a, r);
    CommitIsAdmitted(boot, a, r);
    DecidedStands(boot, a, r);
    if IsControl(r.op) { ControlBars(boot.limits, a, r, id); }
    else if Barred(a, id) { DataBars(boot, a, r, id); }
    SettledBarred(boot.limits, e.account, r, d.outcome, r.authority.incarnation, id);
  }

  lemma SettledBarred(limits: Limits, a: AccountState, r: Request, o: Outcome, id: u64, k: u64)
    ensures Barred(Settled(limits, (if o.applied then CountCommitted(a, id) else CountRefused(a, id)), r, o), k) ==
              Barred(a, k)
  {
    SettledFields(limits, a, r, o, id);
  }

  // ---------------------------------------------------------------- standing

  /** The applied operation withdraws the standing of `k`. */
  predicate Withdraws(r: Request, k: u64) {
    AdvancesEra(r.op) || ((r.op.Fence? || r.op.RetireIncarnation?) && r.target == k)
  }

  /** Who is live in `e.account`, in terms of who was live in `a`. */
  ghost predicate StandingFollows(a: AccountState, r: Request, e: Effect, k: u64)
    requires e.Changed? || e.Declined?
  {
    && (k in e.account.incarnations && e.account.incarnations[k].state == Reconciled ==>
          || (k == r.authority.incarnation && r.op.Reconcile? && e.Changed?)
          || (k in a.incarnations && a.incarnations[k].state == Reconciled && !(e.Changed? && Withdraws(r, k))))
    && (!(e.Changed? && AdvancesEra(r.op)) ==> e.account.epoch == a.epoch && e.account.generation == a.generation)
  }

  lemma DataStanding(boot: Boot, a: AccountState, r: Request, k: u64)
    requires var e := DataEffect(boot, a, r); !IsControl(r.op) && (e.Changed? || e.Declined?)
    ensures StandingFollows(a, r, DataEffect(boot, a, r), k)
  {
    hide LedgerVerdict;
  }

  lemma ControlStanding(limits: Limits, a: AccountState, r: Request, k: u64)
    requires var e := ControlEffect(limits, a, r); IsControl(r.op) && (e.Changed? || e.Declined?)
    ensures StandingFollows(a, r, ControlEffect(limits, a, r), k)
  {
    hide Planned, FenceOf, AccountDigest;
  }

  /** Whoever is live after a decision either reconciled by it, or was live before it and was not withdrawn. */
  lemma SettledStanding(boot: Boot, a: AccountState, r: Request, k: u64)
    requires DecideOn(boot, a, r).Commit?
    ensures var d := DecideOn(boot, a, r);
            var s := Settled(boot.limits, d.after, r, d.outcome);
            && (k in s.incarnations && s.incarnations[k].state == Reconciled ==>
                  || (k == r.authority.incarnation && r.op.Reconcile? && d.outcome.applied)
                  || (k in a.incarnations && a.incarnations[k].state == Reconciled
                      && !(d.outcome.applied && Withdraws(r, k))))
            && (!(d.outcome.applied && AdvancesEra(r.op)) ==> s.epoch == a.epoch && s.generation == a.generation)
  {
    hide DecideOn, ControlEffect, DataEffect, Insert;
    var e, d := EffectOf(boot, a, r), DecideOn(boot, a, r);
    CommitIsAdmitted(boot, a, r);
    if IsControl(r.op) { ControlStanding(boot.limits, a, r, k); } else { DataStanding(boot, a, r, k); }
    SettledFields(boot.limits, e.account, r, d.outcome, r.authority.incarnation);
  }

  /** An operation other than Reconcile is decided only for a live incarnation of the current era. */
  lemma CommitIsLive(boot: Boot, a: AccountState, r: Request)
    requires DecideOn(boot, a, r).Commit? && !r.op.Reconcile?
    ensures r.authority.incarnation in a.incarnations
    ensures IsLive(a.incarnations[r.authority.incarnation], r.authority.epoch, r.authority.generation)
  {
    CommitIsAdmitted(boot, a, r);
  }

  // ---------------------------------------------------------------- credit

  /** Credit an applied request issues or consumes. */
  function IssuedOf(r: Request, applied: bool): nat { if applied && r.op.Issue? then r.count else 0 }
  function ConsumedOf(r: Request, applied: bool): nat { if applied && r.op.Consume? then r.count else 0 }

  lemma LedgerSpends(a: AccountState, r: Request)
    requires Closed(a.capacity, a.totals) && LedgerVerdict(a, r).status.Ok()
    ensures var plan := LedgerVerdict(a, r);
            Outstanding(a.capacity, plan.totals) + ConsumedOf(r, true) <= Outstanding(a.capacity,
                a.totals) + IssuedOf(r, true)
  {
    var m := MoveOf(a.config, r).value;
    MoveSpendsOnlyIssued(a.capacity, a.totals, m);
    StageRefinesBuckets(a.capacity, a.totals, m);
  }

  lemma PlanSpends(a: AccountState, m: Move)
    requires Closed(a.capacity, a.totals) && Planned(a.capacity, a.totals, m).status.Ok() && !m.Issued?
    ensures var plan := Planned(a.capacity, a.totals, m);
            && Outstanding(plan.capacity, plan.totals) <= Outstanding(a.capacity, a.totals)
            && (m.Quarantined? ==> Outstanding(plan.capacity, plan.totals) == 0 && plan.capacity == a.capacity)
  {
    MoveSpendsOnlyIssued(a.capacity, a.totals, m);
    StageRefinesBuckets(a.capacity, a.totals, m);
  }

  ghost predicate Spends(a: AccountState, b: AccountState, r: Request, applied: bool) {
    && Outstanding(b.capacity, b.totals) + ConsumedOf(r, applied) <=
         Outstanding(a.capacity, a.totals) + IssuedOf(r, applied)
    && (applied && AdvancesEra(r.op) ==> Outstanding(b.capacity, b.totals) == 0)
  }

  lemma DataSpends(boot: Boot, a: AccountState, r: Request)
    requires Closed(a.capacity, a.totals) && !IsControl(r.op) && DataEffect(boot, a, r).Changed? && !r.op.Describe?
    ensures Spends(a, DataEffect(boot, a, r).account, r, true)
  {
    var id := r.authority.incarnation;
    if r.op.Issue? {
      LedgerSpends(a.(incarnations := a.incarnations[id := Bound(a.incarnations[id], r).0]), r);
    } else if !r.op.Reconcile? {
      LedgerSpends(a, r);
    }
  }

  lemma ControlSpends(limits: Limits, a: AccountState, r: Request)
    requires Closed(a.capacity, a.totals) && IsControl(r.op) && ControlEffect(limits, a, r).Changed?
    ensures Spends(a, ControlEffect(limits, a, r).account, r, true)
  {
    match r.op
    case SetCapacity => PlanSpends(a, Resized(r.newCapacity, a.config.maxCapacity, a.config.rules.allowGrowth));
    case Retire => PlanSpends(a, RetiredStale(r.count));
    case Revalidate =>
      PlanSpends(a, if r.decision == ToReturned then RevalidatedReturned(r.count) else RevalidatedConsumed(r.count));
    case AdvanceEpoch => PlanSpends(a, Quarantined);
    case Rotate => PlanSpends(a, Quarantined);
    case _ =>
  }

  /** A decision spends no more than was outstanding, and a new era starts with nothing outstanding. */
  lemma SettledSpends(boot: Boot, a: AccountState, r: Request)
    requires Closed(a.capacity, a.totals) && DecideOn(boot, a, r).Commit? && !r.op.Describe?
    ensures var d := DecideOn(boot, a, r); Spends(a, Settled(boot.limits, d.after, r, d.outcome), r, d.outcome.applied)
  {
    hide Settled, StandingRefusal, Placement, Stamped, ControlEffect, DataEffect;
    var e, d := EffectOf(boot, a, r), DecideOn(boot, a, r);
    CommitIsAdmitted(boot, a, r);
    SettledFields(boot.limits, e.account, r, d.outcome, r.authority.incarnation);
    if e.Changed? {
      if IsControl(r.op) { ControlSpends(boot.limits, a, r); } else { DataSpends(boot, a, r); }
    } else {
      DeclinedLedger(boot, a, r);
    }
  }

  lemma DeclinedLedger(boot: Boot, a: AccountState, r: Request)
    requires EffectOf(boot, a, r).Declined?
    ensures var e := EffectOf(boot, a, r); e.account.totals == a.totals && e.account.capacity == a.capacity
  {}
}
