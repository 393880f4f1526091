/** What one call does to an incarnation's watermark, as its client sees it (src/engine.cpp:878-969, 1479-1493). */
module Serving {
  import opened Types
  import opened Digests
  import opened Ledger
  import opened Windows
  import opened Engine
  import opened LiveReplay
  import opened EngineInvariant
  import opened Decisions
  import opened WindowRuns
  import opened Storage
  import Histories

  /** The attempt ids an account's window knows. */
  function IdsOf(accounts: Accounts, acc: u64): set<Digest128> {
    if acc in accounts then accounts[acc].window.byAttempt.Keys else {}
  }

  /** The invariant of an engine that was never restored from a snapshot. */
  ghost predicate ServerOk(limits: Limits, accounts: Accounts) {
    AccountsOk(limits, accounts) && forall k :: k in accounts ==> WindowOk(limits, accounts[k])
  }

  lemma PutServer(limits: Limits, accounts: Accounts, id: u64, a: AccountState)
    requires ServerOk(limits, accounts) && AccountOk(limits, a) && a.config.account == id && WindowOk(limits, a)
    ensures ServerOk(limits, accounts[id := a])
  {
    hide AccountOk, WindowOk;
  }

  lemma RestoredWindowOk(limits: Limits, a: AccountState, b: AccountState)
    requires AccountRestored(a, b) && WindowOk(limits, a)
    ensures WindowOk(limits, b)
  {
    forall k | k in b.window.byKey ensures 0 < k.sequence <= Watermark(b, k.incarnation) {
      assert k in a.window.byKey;
      if k.incarnation in a.incarnations {
        assert RecordRestored(a.incarnations[k.incarnation], b.incarnations[k.incarnation]);
      }
    }
  }

  lemma RestoredMark(x: Accounts, y: Accounts, acc: u64, id: u64)
    requires AccountsRestored(x, y)
    ensures MarkOf(y, acc, id) == MarkOf(x, acc, id)
  {
    if acc in x && id in x[acc].incarnations {
      assert RecordRestored(x[acc].incarnations[id], y[acc].incarnations[id]);
    }
  }

  /** The account takes the request's slot: its watermark moves there, no other moves, its window is in order, and
      learns at most the request's attempt id. */
  ghost predicate Takes(limits: Limits, accounts: Accounts, r: Request, a: AccountState) {
    && WindowOk(limits, a) && r.sequence == MarkOf(accounts, r.authority.account, r.authority.incarnation) + 1
    && (forall id :: Watermark(a, id) == if id ==
           r.authority.incarnation then r.sequence else MarkOf(accounts, r.authority.account, id))
    && a.window.byAttempt.Keys <= IdsOf(accounts, r.authority.account) + {r.attempt}
  }

  lemma DecisionTakes(boot: Boot, accounts: Accounts, r: Request, d: Decision)
    requires FencesFit(boot.limits) && r.authority.account in accounts && r.authority.incarnation != 0
    requires AccountOk(boot.limits, accounts[r.authority.account])
    requires WindowOk(boot.limits, accounts[r.authority.account])
    requires d == DecideOn(boot, accounts[r.authority.account], r) && d.Commit?
    ensures Takes(boot.limits, accounts, r, Settled(boot.limits, d.after, r, d.outcome))
  {
    hide AccountOk, Settled, DecideOn, WindowOk, StandingRefusal, Placement, EffectOf;
    var a := accounts[r.authority.account];
    CommitIsAdmitted(boot, a, r);
    DecisionWindow(boot, a, r, d);
    forall id
      ensures Watermark(Settled(boot.limits, d.after, r, d.outcome), id) == if id ==
                r.authority.incarnation then r.sequence else Watermark(a, id)
    {
      SettledWatermarks(boot, a, r, id);
    }
  }

  /** The account a fresh decision leaves. */
  lemma CommittedServer(boot: Boot, st: EngineState, r: Request, d: Decision)
    requires FencesFit(boot.limits) && ServerOk(boot.limits, st.accounts) && d == Decide(boot, st, r) && d.Commit?
    ensures Takes(boot.limits, st.accounts, r, Settled(boot.limits, d.after, r, d.outcome))
  {
    hide Decide, DecideOn, Opened, Settled, WindowOk, AccountOk;
    CommitForm(boot, st, r, d);
    if r.op.Open? {
      OpenWindow(boot.limits, r, d.outcome);
      Histories.OpenMarks(boot.limits, r, d.outcome);
    } else {
      DecisionTakes(boot, st.accounts, r, d);
    }
  }

  /** Every call keeps the invariant, moves only the watermark of a freshly decided attempt, to its slot, and teaches
      the windows at most its own attempt id. */
  lemma CallMoves(boot: Boot, st: EngineState, disk: Disk, r: Request, io: Io, d: Decision)
    requires FencesFit(boot.limits) && ServerOk(boot.limits, st.accounts) && d == Decide(boot, st, r)
    ensures var f := Finish(boot.limits, st, disk, r, io, d);
            var decided := d.Commit? && io == ALL_WRITTEN;
            && ServerOk(boot.limits, f.state.accounts)
            && (decided ==> r.sequence == MarkOf(st.accounts, r.authority.account, r.authority.incarnation) + 1)
            && (forall acc, id :: MarkOf(f.state.accounts, acc, id) ==
                 if decided && acc == r.authority.account && id == r.authority.incarnation then r.sequence
                 else MarkOf(st.accounts, acc, id))
            && forall acc :: IdsOf(f.state.accounts, acc) <= IdsOf(st.accounts, acc) + {r.attempt}
  {
    hide Decide, Finish, Settled, AccountsOk, WindowOk;
    DecisionKeeps(boot, st, r);
    FinishAccounts(boot.limits, st, disk, r, io, d);
    if d.Commit? {
      if io == ALL_WRITTEN {
        CommittedServer(boot, st, r, d);
        SettledConfig(boot.limits, d.after, r, d.outcome);
        PutServer(boot.limits, st.accounts, r.authority.account, Settled(boot.limits, d.after, r, d.outcome));
      } else {
        DecideRestores(boot, st, r);
        RestoreOk(boot.limits, st.accounts, r.authority.account, d.fallback);
        RestoredServer(boot.limits, st.accounts, Restore(st.accounts, r.authority.account, d.fallback));
      }
    }
  }

  lemma RestoredServer(limits: Limits, x: Accounts, y: Accounts)
    requires AccountsRestored(x, y) && ServerOk(limits, x) && AccountsOk(limits, y)
    ensures ServerOk(limits, y)
    ensures (forall acc, id :: MarkOf(y, acc, id) == MarkOf(x, acc, id)) && forall acc :: IdsOf(y, acc) == IdsOf(x, acc)
  {
    hide AccountsOk, WindowOk;
    forall acc, id ensures MarkOf(y, acc, id) == MarkOf(x, acc, id) { RestoredMark(x, y, acc, id); }
    forall k | k in y ensures WindowOk(limits, y[k]) { RestoredWindowOk(limits, x[k], y[k]); }
  }

  lemma RestoreOk(limits: Limits, accounts: Accounts, id: u64, fallback: Option<AccountState>)
    requires AccountsOk(limits, accounts)
    requires fallback.Some? ==> AccountOk(limits, fallback.value) && fallback.value.config.account == id
    ensures AccountsOk(limits, Restore(accounts, id, fallback))
  {
    hide AccountOk;
  }

  // ---------------------------------------------------------------- what the caller is told

  /** The next slot of its incarnation, under an attempt id the window does not know. */
  predicate WellPlaced(accounts: Accounts, r: Request) {
    && r.sequence == MarkOf(accounts, r.authority.account, r.authority.incarnation) + 1
    && (r.authority.account in accounts ==> !KnowsAttempt(accounts[r.authority.account].window, r.attempt))
  }

  predicate Misplaces(reason: Reason) { reason == SEQUENCE_GAP || reason == STALE_REPLAY }

  /** The journal never reports a placement refusal of its own. */
  predicate Plain(io: Io) {
    (io.intent.Failed? ==> !Misplaces(io.intent.reason)) && (io.commit.Failed? ==> !Misplaces(io.commit.reason))
  }

  lemma CheckNeverMisplaces(capacity: u64, t: CreditTotals)
    ensures !Misplaces(CheckInvariants(capacity, t).reason)
  {}

  lemma RunNeverMisplaces(p: Plan, m: Move)
    requires !Misplaces(p.status.reason)
    ensures !Misplaces(Run(p, m).status.reason)
  {
    var d := DraftOf(p, m);
    if d.Candidate? { CheckNeverMisplaces(p.capacity, d.totals); }
  }

  lemma PlanNeverMisplaces(a: AccountState, m: Move)
    ensures !Misplaces(Planned(a.capacity, a.totals, m).status.reason)
  {
    CheckNeverMisplaces(a.capacity, a.totals);
    RunNeverMisplaces(NewPlan(a.capacity, a.totals), m);
  }

  lemma LedgerNeverMisplaces(a: AccountState, r: Request)
    ensures !Misplaces(LedgerVerdict(a, r).status.reason)
  {
    if MoveOf(a.config, r).Some? { PlanNeverMisplaces(a, MoveOf(a.config, r).value); }
  }

  lemma DataNeverMisplaces(boot: Boot, a: AccountState, r: Request)
    requires !IsControl(r.op) && !DataEffect(boot, a, r).Changed?
    ensures !Misplaces(DataEffect(boot, a, r).status.reason)
  {
    var id := r.authority.incarnation;
    LedgerNeverMisplaces(a, r);
    if id in a.incarnations {
      LedgerNeverMisplaces(a.(incarnations := a.incarnations[id := Bound(a.incarnations[id], r).0]), r);
    }
  }

  lemma ControlNeverMisplaces(limits: Limits, a: AccountState, r: Request)
    requires IsControl(r.op) && !ControlEffect(limits, a, r).Changed?
    ensures !Misplaces(ControlEffect(limits, a, r).status.reason)
  {
    match r.op
    case SetCapacity => PlanNeverMisplaces(a, Resized(r.newCapacity, a.config.maxCapacity, a.config.rules.allowGrowth));
    case Retire => PlanNeverMisplaces(a, RetiredStale(r.count));
    case Revalidate =>
      PlanNeverMisplaces(a, if r.decision ==
          ToReturned then RevalidatedReturned(r.count) else RevalidatedConsumed(r.count));
    case AdvanceEpoch => PlanNeverMisplaces(a, Quarantined);
    case Rotate => PlanNeverMisplaces(a, Quarantined);
    case _ =>
  }

  lemma EffectNeverMisplaces(boot: Boot, a: AccountState, r: Request, e: Effect)
    requires e == EffectOf(boot, a, r) && !e.Changed?
    ensures !Misplaces(e.status.reason)
  {
    if IsControl(r.op) { ControlNeverMisplaces(boot.limits, a, r); } else { DataNeverMisplaces(boot, a, r); }
  }

  /** A well-placed request on an existing account is decided afresh or refused without a decision, never as misplaced.
      */
  lemma PlacedDecision(boot: Boot, a: AccountState, r: Request)
    requires WindowBelow(a) && r.sequence == Watermark(a, r.authority.incarnation) + 1
    requires !KnowsAttempt(a.window, r.attempt)
    ensures var d := DecideOn(boot, a, r);
            !Misplaces(d.outcome.status.reason) && (!d.Commit? ==> !d.outcome.decided && !d.outcome.status.Ok())
  {
    hide ControlEffect, DataEffect, ViewOf, AccountDigest, CountCommitted, CountRefused, Fallback;
    var e := EffectOf(boot, a, r);
    if StandingRefusal(boot, a, r).None? {
      if !e.Changed? { EffectNeverMisplaces(boot, a, r, e); }
      RefusalsRefuse(boot, a, r, e);
      assert DecideOn(boot, a, r) == Conclude(a, r, InEra(Blank(r), a), e);
    }
  }

  lemma RefusalsRefuse(boot: Boot, a: AccountState, r: Request, e: Effect)
    requires e == EffectOf(boot, a, r)
    ensures (e.Denied? || e.Leaked?) ==> !e.status.Ok()
  {}

  /** A well-placed Open is decided afresh or refused without a decision; on an existing account it is just refused. */
  lemma OpenDecisionTells(boot: Boot, accounts: Accounts, r: Request)
    requires r.op.Open? && r.sequence == 1
    ensures var d := OpenDecision(boot, accounts, r);
            && !Misplaces(d.outcome.status.reason) && (!d.Commit? ==> !d.outcome.decided && !d.outcome.status.Ok())
            && (d.Commit? ==> r.authority.account !in accounts)
  {}

  /** What a caller who placed its request well, or opens, or describes, can be told. */
  predicate Tells(r: Request, d: Decision) {
    && !Misplaces(d.outcome.status.reason)
    && (!d.Commit? ==> !d.outcome.decided && (!r.op.Describe? ==> !d.outcome.status.Ok()))
  }

  /** Describing, opening at slot 1, or well placed. */
  predicate Proper(accounts: Accounts, r: Request) {
    r.op.Describe? || (r.op.Open? && r.sequence == 1) || WellPlaced(accounts, r)
  }

  lemma DescribeTells(a: AccountState, r: Request)
    ensures !Misplaces(DescribeOn(a, r).status.reason) && !DescribeOn(a, r).decided
    ensures DescribeOn(a, r).status.Ok() ==> DescribeOn(a, r).sequence == Watermark(a, r.authority.incarnation)
    ensures DescribeOn(a, r).authority.account == r.authority.account
  {}

  lemma ProperTells(boot: Boot, st: EngineState, r: Request)
    requires ServerOk(boot.limits, st.accounts) && Proper(st.accounts, r)
    ensures Tells(r, Decide(boot, st, r))
    ensures r.op.Describe? && Decide(boot, st, r).outcome.status.Ok() ==>
              && Decide(boot, st, r).outcome.sequence ==
                   MarkOf(st.accounts, r.authority.account, r.authority.incarnation)
              && Decide(boot, st, r).outcome.authority.account == r.authority.account != 0
    ensures r.op.Describe? ==> Decide(boot, st, r).Reply?
  {
    hide AccountsOk, OpenDecision, DecideOn, Agrees, Stamped;
    var acc := r.authority.account;
    if r.op.Open? && r.sequence == 1 {
      OpenDecisionTells(boot, st.accounts, r);
    } else if acc in st.accounts {
      if r.op.Describe? {
        DescribeTells(st.accounts[acc], r);
      } else if !r.op.Open? {
        PlacedDecision(boot, st.accounts[acc], r);
      } else {
        OpenRefused(boot, st.accounts, r);
      }
    }
  }

  /** A new request beyond the next slot, from a caller in good standing, is refused as a gap. */
  lemma AheadIsGap(boot: Boot, st: EngineState, r: Request)
    requires Up(st) && Structural(boot, r).None? && !r.op.Open? && !r.op.Describe? && r.authority.account in st.accounts
    requires var a := st.accounts[r.authority.account];
             && StandingRefusal(boot, a, r).None? && WindowBelow(a) && !KnowsAttempt(a.window, r.attempt)
             && r.sequence > Watermark(a, r.authority.incarnation) + 1
    ensures Decide(boot, st, r) ==
            Reply(Refused(Blank(r),
                          Status(SEQUENCE_GAP, Watermark(st.accounts[r.authority.account],
                                                         r.authority.incarnation) + 1)))
  {
    hide StandingRefusal, Structural, ControlEffect, DataEffect;
  }

  lemma OpenRefused(boot: Boot, accounts: Accounts, r: Request)
    requires r.authority.account in accounts
    ensures OpenDecision(boot, accounts, r) == Reply(Refused(Blank(r), Status(ACCOUNT_EXISTS, r.authority.account)))
  {}
}
