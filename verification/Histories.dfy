/** Safety over whole multi-boot runs: exactly-once decisions, permanent fences, authority, no double spend.

    The theorems are about `history`, the sequence of all durable commits and boots of a run of module `System`. */
module Histories {
  import opened Types
  import opened Digests
  import opened Ledger
  import opened Windows
  import opened Engine
  import opened Recovery
  import opened EngineInvariant
  import opened Faithful
  import opened System
  import opened Decisions

  // ---------------------------------------------------------------- reading the truth

  predicate BarredIn(truth: Accounts, acc: u64, id: u64) {
    acc in truth && Barred(truth[acc], id)
  }

  function SpendableIn(truth: Accounts, acc: u64): int {
    if acc in truth then Outstanding(truth[acc].capacity, truth[acc].totals) else 0
  }

  // ---------------------------------------------------------------- steps seen from the history

  /** The action makes a fresh decision durable. */
  predicate Commits(s: Sys, action: Action) {
    action.Serve? && Decide(s.boot, s.mem, action.request).Commit? && CommitDurable(action.io)
  }

  function EventOf(st: EngineState, r: Request, d: Decision): Event
    requires d.Commit?
  {
    Committed(AttemptOf(st, r, d.outcome, d.after))
  }

  /** The decision `d` on `r` becomes the last event, and `a` the account's truth. */
  ghost predicate Extends(s: Sys, s': Sys, e: Event, a: AccountState) {
    && e.Committed?
    && s'.truth == s.truth[e.attempt.request.authority.account := a]
    && s'.history == s.history + [e]
    && Up(s.mem)
    && (Up(s'.mem) ==> s'.mem.accounts == s.mem.accounts[e.attempt.request.authority.account := a])
  }

  lemma CommitSteps(s: Sys, r: Request, io: Io, d: Decision)
    requires d == Decide(s.boot, s.mem, r) && d.Commit? && CommitDurable(io)
    ensures Extends(s, ServeStep(s, r, io), EventOf(s.mem, r, d), Settled(s.boot.limits, d.after, r, d.outcome))
  {
    hide Decide, Settled, DurableOf;
    DecisionDecides(s.boot, s.mem, r);
    FinishCases(s.boot.limits, s.mem, s.disk, r, io, d);
    FinishAccounts(s.boot.limits, s.mem, s.disk, r, io, d);
  }

  /** A step that decides nothing: the truth stays, and only a boot, which leaves nobody live, adds to the history. */
  ghost predicate Idles(s: Sys, s': Sys) {
    && s'.truth == s.truth
    && (|| (s'.history == s.history && (Up(s'.mem) ==> Up(s.mem) && s'.mem.accounts == s.mem.accounts))
        || (s'.history == s.history + [Booted] && (Up(s'.mem) ==> NobodyLive(s'.mem.accounts))))
  }

  ghost predicate NobodyLive(accounts: Accounts) {
    forall k, i :: k in accounts && i in accounts[k].incarnations ==> accounts[k].incarnations[i].state != Reconciled
  }

  lemma ServeIdles(s: Sys, r: Request, io: Io, d: Decision)
    requires FencesFit(s.boot.limits) && SysOk(s) && d == Decide(s.boot, s.mem, r) && !(d.Commit? && CommitDurable(io))
    ensures Idles(s, ServeStep(s, r, io))
  {
    hide Decide, DiskTells, Settled, AttemptOf, SameAccounts;
    DecisionDecides(s.boot, s.mem, r);
    if d.Commit? {
      FinishCases(s.boot.limits, s.mem, s.disk, r, io, d);
    } else {
      if Up(s.mem) { DecisionKeeps(s.boot, s.mem, r); } else { IdleReplies(s.boot, s.mem, r); }
      assert ServeStep(s, r, io) == s;
    }
  }

  lemma SnapshotIdles(s: Sys, ds: DurableState<Digest>, io: SnapshotIo)
    ensures Idles(s, SnapshotStep(s, ds, io))
  {}

  lemma RebootIdles(s: Sys, operatorId: u64, nonce: Digest128)
    ensures Idles(s, RebootStep(s, operatorId, nonce))
  {
    hide Recover;
    if Recover(s.boot.limits, s.disk).Good? { RecoveredQuiet(s.boot.limits, s.disk); }
  }

  /** Every other step is idle. */
  lemma OtherSteps(s: Sys, action: Action)
    requires FencesFit(s.boot.limits) && SysOk(s) && !Commits(s, action)
    ensures Idles(s, Stepped(s, action))
  {
    hide Decide, ServeStep, SysOk, SnapshotStep, RebootStep;
    match action
    case Serve(r, io) => ServeIdles(s, r, io, Decide(s.boot, s.mem, r));
    case Snapshot(ds, fates) => SnapshotIdles(s, ds, fates);
    case Reboot(operatorId, nonce) => RebootIdles(s, operatorId, nonce);
  }

  /** A fresh decision is an Open of an absent account, or a decision on the account in memory. */
  lemma CommitForms(s: Sys, r: Request, d: Decision)
    requires SysOk(s) && d == Decide(s.boot, s.mem, r) && d.Commit?
    ensures Up(s.mem) && r.authority.incarnation != 0 && r.sequence != 0 && !r.op.Describe?
    ensures var acc := r.authority.account;
            if r.op.Open? then
              && acc !in s.truth && r.sequence == 1 && r.authority.epoch == 1 && r.authority.generation == 1
              && d.after == Opened(s.boot.limits, r) && d.outcome.applied
            else
              && acc in s.mem.accounts && acc in s.truth && Same(s.mem.accounts[acc], s.truth[acc])
              && AccountOk(s.boot.limits, s.mem.accounts[acc])
              && d == DecideOn(s.boot, s.mem.accounts[acc], r)
  {
    hide Decide, Opened, Same, AccountOk, DecideOn, DiskTells;
    CommitForm(s.boot, s.mem, r, d);
  }

  // ---------------------------------------------------------------- exactly once

  /** The slots an incarnation's durable decisions on an account used, in order. */
  function SlotsOf(h: seq<Event>, acc: u64, id: u64): seq<u64> {
    if h == [] then [] else
    var init, last := h[..|h| - 1], h[|h| - 1];
    if IsDecisionBy(last, acc, id) then SlotsOf(init, acc, id) + [last.attempt.request.sequence]
    else SlotsOf(init, acc, id)
  }

  predicate IsDecisionBy(e: Event, acc: u64, id: u64) {
    e.Committed? && e.attempt.request.authority.account == acc && e.attempt.request.authority.incarnation == id
  }

  function Upto(n: u64): seq<u64> { seq(n, i requires 0 <= i < n => i + 1) }

  ghost predicate ExactlyOnce(h: seq<Event>, truth: Accounts) {
    forall acc, id :: SlotsOf(h, acc, id) == Upto(MarkOf(truth, acc, id))
  }

  /** The event takes its incarnation's next slot, and the account moves that watermark and no other. */
  ghost predicate Marks(truth: Accounts, e: Event, a: AccountState)
    requires e.Committed?
  {
    var r := e.attempt.request;
    && r.sequence == MarkOf(truth, r.authority.account, r.authority.incarnation) + 1
    && forall id :: Watermark(a, id) == if id ==
         r.authority.incarnation then r.sequence else MarkOf(truth, r.authority.account, id)
  }

  lemma OpenMarks(limits: Limits, r: Request, o: Outcome)
    requires o.applied
    ensures forall id :: Watermark(Settled(limits, Opened(limits, r), r, o), id) == if id ==
              r.authority.incarnation then r.sequence else 0
  {}

  lemma SlotsPush(h: seq<Event>, e: Event, acc: u64, id: u64)
    ensures SlotsOf(h + [e], acc, id) ==
            if IsDecisionBy(e, acc, id) then SlotsOf(h, acc, id) + [e.attempt.request.sequence] else SlotsOf(h, acc, id)
  {
    assert (h + [e])[..|h|] == h;
  }

  lemma ExactlyOnceStep(h: seq<Event>, truth: Accounts, e: Event, a: AccountState)
    requires ExactlyOnce(h, truth) && e.Committed? && Marks(truth, e, a)
    ensures ExactlyOnce(h + [e], truth[e.attempt.request.authority.account := a])
  {
    var truth' := truth[e.attempt.request.authority.account := a];
    forall acc, id ensures SlotsOf(h + [e], acc, id) == Upto(MarkOf(truth', acc, id)) {
      SlotsPush(h, e, acc, id);
      assert SlotsOf(h, acc, id) == Upto(MarkOf(truth, acc, id));
    }
  }

  lemma ExactlyOnceIdle(h: seq<Event>, truth: Accounts)
    requires ExactlyOnce(h, truth)
    ensures ExactlyOnce(h + [Booted], truth)
  {
    forall acc, id ensures SlotsOf(h + [Booted], acc, id) == Upto(MarkOf(truth, acc, id)) {
      SlotsPush(h, Booted, acc, id);
    }
  }

  // ---------------------------------------------------------------- fences and retirements

  /** An applied Fence or RetireIncarnation of the incarnation. */
  predicate IsBarOf(e: Event, acc: u64, id: u64) {
    && e.Committed? && e.attempt.outcome.applied && e.attempt.request.authority.account == acc
    && Excludes(e.attempt.request, id)
  }

  /** No attempt of an incarnation is decided after it was fenced or retired. */
  ghost predicate BarsHold(h: seq<Event>) {
    forall acc, id, i, j :: 0 <= i < j < |h| && IsBarOf(h[i], acc, id) ==> !IsDecisionBy(h[j], acc, id)
  }

  ghost predicate BarsKept(h: seq<Event>, truth: Accounts) {
    && BarsHold(h)
    && forall acc, id, i :: 0 <= i < |h| && IsBarOf(h[i], acc, id) ==> BarredIn(truth, acc, id)
  }

  /** The event is not of a barred incarnation, and the account keeps every bar and adds the event's own. */
  ghost predicate Respects(truth: Accounts, e: Event, a: AccountState)
    requires e.Committed?
  {
    var r := e.attempt.request;
    && (forall id :: BarredIn(truth, r.authority.account, id) ==> Barred(a, id))
    && (e.attempt.outcome.applied ==> forall id :: Excludes(r, id) ==> Barred(a, id))
    && !BarredIn(truth, r.authority.account, r.authority.incarnation)
  }

  lemma BarsStep(h: seq<Event>, truth: Accounts, e: Event, a: AccountState)
    requires BarsKept(h, truth) && e.Committed? && Respects(truth, e, a)
    ensures BarsKept(h + [e], truth[e.attempt.request.authority.account := a])
  {
    var h', truth' := h + [e], truth[e.attempt.request.authority.account := a];
    forall acc, id, i | 0 <= i < |h'| && IsBarOf(h'[i], acc, id) ensures BarredIn(truth', acc, id) {
      if i < |h| {
        assert IsBarOf(h[i], acc, id);
        assert BarredIn(truth, acc, id);
      }
    }
    forall acc, id, i, j | 0 <= i < j < |h'| && IsBarOf(h'[i], acc, id) ensures !IsDecisionBy(h'[j], acc, id) {
      assert IsBarOf(h[i], acc, id);
      if j < |h| { assert !IsDecisionBy(h[j], acc, id); }
    }
  }

  lemma BarsIdle(h: seq<Event>, truth: Accounts)
    requires BarsKept(h, truth)
    ensures BarsKept(h + [Booted], truth)
  {
    var h' := h + [Booted];
    forall acc, id, i | 0 <= i < |h'| && IsBarOf(h'[i], acc, id) ensures BarredIn(truth, acc, id) {
      assert IsBarOf(h[i], acc, id);
    }
    forall acc, id, i, j | 0 <= i < j < |h'| && IsBarOf(h'[i], acc, id) ensures !IsDecisionBy(h'[j], acc, id) {
      assert IsBarOf(h[i], acc, id);
      if j < |h| { assert !IsDecisionBy(h[j], acc, id); }
    }
  }

  // ---------------------------------------------------------------- authority

  /** The event proves liveness of `id` on `acc` in the era. */
  predicate Grants(e: Event, acc: u64, id: u64, epoch: u64, generation: u64) {
    && e.Committed? && e.attempt.outcome.applied && (e.attempt.request.op.Open? || e.attempt.request.op.Reconcile?)
    && e.attempt.request.authority.account == acc && e.attempt.request.authority.incarnation == id
    && e.attempt.request.authority.epoch == epoch && e.attempt.request.authority.generation == generation
  }

  /** The event withdraws it: a boot, an era advance of the account, or a fence or retirement of the incarnation. */
  predicate Revokes(e: Event, acc: u64, id: u64) {
    match e
    case Booted => true
    case Committed(t) => t.outcome.applied && t.request.authority.account == acc && Withdraws(t.request, id)
  }

  /** A grant since which nothing revoked it. */
  ghost predicate LiveSince(h: seq<Event>, acc: u64, id: u64, epoch: u64, generation: u64) {
    exists j :: GrantStands(h, j, acc, id, epoch, generation)
  }

  ghost predicate GrantStands(h: seq<Event>, j: nat, acc: u64, id: u64, epoch: u64, generation: u64) {
    && j < |h| && Grants(h[j], acc, id, epoch, generation)
    && forall k :: j < k < |h| ==> !Revokes(h[k], acc, id)
  }

  predicate NeedsAuthority(e: Event) {
    e.Committed? && e.attempt.outcome.applied && !e.attempt.request.op.Open? && !e.attempt.request.op.Reconcile?
  }

  /** The applied operation at `i` stands on an unrevoked grant of its own incarnation and era. */
  ghost predicate AuthorisedAt(h: seq<Event>, i: nat)
    requires i < |h| && h[i].Committed?
  {
    var a := h[i].attempt.request.authority;
    LiveSince(h[..i], a.account, a.incarnation, a.epoch, a.generation)
  }

  ghost predicate Authorised(h: seq<Event>) {
    forall i :: 0 <= i < |h| && NeedsAuthority(h[i]) ==> AuthorisedAt(h, i)
  }

  /** Whoever is live has an unrevoked grant in the history. */
  ghost predicate LiveOnGrants(h: seq<Event>, accounts: Accounts) {
    forall acc, id ::
      acc in accounts && id in accounts[acc].incarnations && accounts[acc].incarnations[id].state == Reconciled ==>
        LiveSince(h, acc, id, accounts[acc].epoch, accounts[acc].generation)
  }

  lemma GrantOutlives(h: seq<Event>, e: Event, acc: u64, id: u64, epoch: u64, generation: u64)
    requires LiveSince(h, acc, id, epoch, generation) && !Revokes(e, acc, id)
    ensures LiveSince(h + [e], acc, id, epoch, generation)
  {
    var j: nat :| GrantStands(h, j, acc, id, epoch, generation);
    assert GrantStands(h + [e], j, acc, id, epoch, generation);
  }

  lemma GrantStarts(h: seq<Event>, e: Event, acc: u64, id: u64, epoch: u64, generation: u64)
    requires Grants(e, acc, id, epoch, generation)
    ensures LiveSince(h + [e], acc, id, epoch, generation)
  {
    assert GrantStands(h + [e], |h|, acc, id, epoch, generation);
  }

  /** Whoever is live in `a` was granted it by the event, or was live before it in the same era and not revoked by it.
      */
  ghost predicate Carries(accounts: Accounts, e: Event, a: AccountState)
    requires e.Committed?
  {
    var acc := e.attempt.request.authority.account;
    forall id :: id in a.incarnations && a.incarnations[id].state == Reconciled ==>
      || Grants(e, acc, id, a.epoch, a.generation)
      || (!Revokes(e, acc, id) && acc in accounts && id in accounts[acc].incarnations
          && accounts[acc].incarnations[id].state == Reconciled
          && accounts[acc].epoch == a.epoch && accounts[acc].generation == a.generation)
  }

  lemma LiveStep(h: seq<Event>, accounts: Accounts, e: Event, a: AccountState)
    requires LiveOnGrants(h, accounts) && e.Committed? && Carries(accounts, e, a)
    ensures LiveOnGrants(h + [e], accounts[e.attempt.request.authority.account := a])
  {
    var accounts' := accounts[e.attempt.request.authority.account := a];
    forall acc, id | acc in accounts' && id in accounts'[acc].incarnations && accounts'[acc].incarnations[id].state ==
      Reconciled
      ensures LiveSince(h + [e], acc, id, accounts'[acc].epoch, accounts'[acc].generation)
    {
      if acc == e.attempt.request.authority.account && Grants(e, acc, id, a.epoch, a.generation) {
        GrantStarts(h, e, acc, id, a.epoch, a.generation);
      } else {
        GrantOutlives(h, e, acc, id, accounts[acc].epoch, accounts[acc].generation);
      }
    }
  }

  lemma AuthorisedStep(h: seq<Event>, e: Event)
    requires Authorised(h)
    requires NeedsAuthority(e) ==>
               var a := e.attempt.request.authority; LiveSince(h, a.account, a.incarnation, a.epoch, a.generation)
    ensures Authorised(h + [e])
  {
    var h' := h + [e];
    forall i | 0 <= i < |h'| && NeedsAuthority(h'[i]) ensures AuthorisedAt(h', i) {
      if i < |h| {
        assert AuthorisedAt(h, i);
        assert h'[..i] == h[..i];
      } else {
        assert h'[..i] == h;
      }
    }
  }

  // ---------------------------------------------------------------- no double spend

  predicate IsOn(e: Event, acc: u64) { e.Committed? && e.attempt.request.authority.account == acc }

  /** Credit the accepted Issues of a history granted on an account. */
  function IssuedIn(h: seq<Event>, acc: u64): nat {
    if h == [] then 0 else
    var init, last := h[..|h| - 1], h[|h| - 1];
    IssuedIn(init, acc) + (if IsOn(last, acc) then IssuedOf(last.attempt.request, last.attempt.outcome.applied) else 0)
  }

  /** Credit the accepted Consumes of a history spent on an account. */
  function ConsumedIn(h: seq<Event>, acc: u64): nat {
    if h == [] then 0 else
    var init, last := h[..|h| - 1], h[|h| - 1];
    ConsumedIn(init, acc) + (if IsOn(last, acc) then ConsumedOf(last.attempt.request, last.attempt.outcome.applied) else 0)
  }

  predicate IsAdvanceOf(e: Event, acc: u64) {
    IsOn(e, acc) && e.attempt.outcome.applied && AdvancesEra(e.attempt.request.op)
  }

  /** What was consumed in the segment, plus what is still spendable, is covered by what the segment issued. */
  ghost predicate Covers(segment: seq<Event>, truth: Accounts, acc: u64) {
    ConsumedIn(segment, acc) + SpendableIn(truth, acc) <= IssuedIn(segment, acc)
  }

  ghost predicate NeverOverspent(h: seq<Event>, truth: Accounts) {
    && (forall acc :: Covers(h, truth, acc))
    && (forall acc, i :: 0 <= i < |h| && IsAdvanceOf(h[i], acc) ==> Covers(h[i + 1..], truth, acc))
  }

  lemma TotalsPush(h: seq<Event>, e: Event, acc: u64)
    ensures IssuedIn(h + [e], acc) ==
              IssuedIn(h, acc) + (if IsOn(e, acc) then IssuedOf(e.attempt.request, e.attempt.outcome.applied) else 0)
    ensures ConsumedIn(h + [e], acc) == ConsumedIn(h, acc) + (if IsOn(e, acc) then ConsumedOf(e.attempt.request, e.attempt.outcome.applied) else 0)
  {
    assert (h + [e])[..|h|] == h;
  }

  /** The event spends no more than was spendable, and an era advance leaves nothing spendable. */
  ghost predicate Pays(truth: Accounts, e: Event, a: AccountState)
    requires e.Committed?
  {
    var r, applied := e.attempt.request, e.attempt.outcome.applied;
    && Outstanding(a.capacity, a.totals) + ConsumedOf(r, applied) <=
         SpendableIn(truth, r.authority.account) + IssuedOf(r, applied)
    && (applied && AdvancesEra(r.op) ==> Outstanding(a.capacity, a.totals) == 0)
  }

  lemma CoversStep(segment: seq<Event>, truth: Accounts, e: Event, a: AccountState, acc: u64)
    requires Covers(segment, truth, acc) && e.Committed? && Pays(truth, e, a)
    ensures Covers(segment + [e], truth[e.attempt.request.authority.account := a], acc)
  {
    TotalsPush(segment, e, acc);
  }

  lemma SpendStep(h: seq<Event>, truth: Accounts, e: Event, a: AccountState)
    requires NeverOverspent(h, truth) && e.Committed? && Pays(truth, e, a)
    ensures NeverOverspent(h + [e], truth[e.attempt.request.authority.account := a])
  {
    var h', truth' := h + [e], truth[e.attempt.request.authority.account := a];
    forall acc ensures Covers(h', truth', acc) { CoversStep(h, truth, e, a, acc); }
    forall acc, i | 0 <= i < |h'| && IsAdvanceOf(h'[i], acc) ensures Covers(h'[i + 1..], truth', acc) {
      if i < |h| {
        assert IsAdvanceOf(h[i], acc);
        CoversStep(h[i + 1..], truth, e, a, acc);
        assert h'[i + 1..] == h[i + 1..] + [e];
      } else {
        assert h'[i + 1..] == [];
      }
    }
  }

  lemma SpendIdle(h: seq<Event>, truth: Accounts)
    requires NeverOverspent(h, truth)
    ensures NeverOverspent(h + [Booted], truth)
  {
    var h' := h + [Booted];
    forall acc ensures Covers(h', truth, acc) {
      assert Covers(h, truth, acc);
      TotalsPush(h, Booted, acc);
    }
    forall acc, i | 0 <= i < |h'| && IsAdvanceOf(h'[i], acc) ensures Covers(h'[i + 1..], truth, acc) {
      assert IsAdvanceOf(h[i], acc);
      TotalsPush(h[i + 1..], Booted, acc);
      assert h'[i + 1..] == h[i + 1..] + [Booted];
    }
  }

  // ---------------------------------------------------------------- one decision

  /** An operation that needs authority is by a live incarnation, in the account's era. */
  predicate Entitled(accounts: Accounts, e: Event) {
    NeedsAuthority(e) ==>
      var v := e.attempt.request.authority;
      && v.account in accounts && v.incarnation in accounts[v.account].incarnations
      && accounts[v.account].incarnations[v.incarnation].state == Reconciled
      && accounts[v.account].epoch == v.epoch && accounts[v.account].generation == v.generation
  }

  /** Everything the run theorems need to know of a decision. */
  ghost predicate Lawful(truth: Accounts, accounts: Accounts, e: Event, a: AccountState)
    requires e.Committed?
  {
    Marks(truth, e, a) && Respects(truth, e, a) && Pays(truth, e, a) && Carries(accounts, e, a) && Entitled(accounts, e)
  }

  lemma DecisionIsLawful(boot: Boot, st: EngineState, truth: Accounts, r: Request, d: Decision)
    requires FencesFit(boot.limits) && r.authority.incarnation != 0 && !r.op.Open? && !r.op.Describe?
    requires r.authority.account in st.accounts && r.authority.account in truth
    requires var a := st.accounts[r.authority.account];
             AccountOk(boot.limits, a) && Same(a, truth[r.authority.account]) && d == DecideOn(boot, a, r) && d.Commit?
    ensures Lawful(truth, st.accounts, EventOf(st, r, d), Settled(boot.limits, d.after, r, d.outcome))
  {
    hide DecideOn, RecordsOk, FencesOk, TalliesOk, Same, Settled, DurableOf, StandingRefusal, Placement, EffectOf;
    var a, b, a' := st.accounts[r.authority.account], truth[r.authority.account], Settled(boot.limits, d.after, r,
        d.outcome);
    CommitIsAdmitted(boot, a, r);
    SettledSpends(boot, a, r);
    SettledBars(boot, a, r, 0);
    SameFields(a, b, r.authority.incarnation);
    if !r.op.Reconcile? { CommitIsLive(boot, a, r); }
    forall id
      ensures Watermark(a', id) == if id == r.authority.incarnation then r.sequence else Watermark(b, id)
      ensures Barred(b, id) || (d.outcome.applied && Excludes(r, id)) ==> Barred(a', id)
      ensures id in a'.incarnations && a'.incarnations[id].state == Reconciled ==>
                || (id == r.authority.incarnation && r.op.Reconcile? && d.outcome.applied)
                || (id in a.incarnations && a.incarnations[id].state == Reconciled
                    && !(d.outcome.applied && Withdraws(r, id)))
    {
      SettledWatermarks(boot, a, r, id);
      SettledBars(boot, a, r, id);
      SettledStanding(boot, a, r, id);
      SameFields(a, b, id);
    }
    SettledStanding(boot, a, r, 0);
  }

  lemma CommitIsLawful(s: Sys, r: Request, d: Decision)
    requires FencesFit(s.boot.limits) && SysOk(s) && d == Decide(s.boot, s.mem, r) && d.Commit?
    ensures Lawful(s.truth, s.mem.accounts, EventOf(s.mem, r, d), Settled(s.boot.limits, d.after, r, d.outcome))
  {
    hide Decide, DecideOn, SysOk, AccountOk, Same, DurableOf, Insert, Resolved;
    CommitForms(s, r, d);
    if r.op.Open? {
      OpenMarks(s.boot.limits, r, d.outcome);
    } else {
      DecisionIsLawful(s.boot, s.mem, s.truth, r, d);
    }
  }

  // ---------------------------------------------------------------- the run theorems

  ghost predicate HistoryOk(s: Sys) {
    && ExactlyOnce(s.history, s.truth) && BarsKept(s.history, s.truth) && NeverOverspent(s.history, s.truth)
    && Authorised(s.history) && (Up(s.mem) ==> LiveOnGrants(s.history, s.mem.accounts))
  }

  lemma StartHistory(boot: Boot)
    ensures HistoryOk(Start(boot))
  {
    forall acc, id ensures SlotsOf([Booted], acc, id) == [] {
      SlotsPush([], Booted, acc, id);
      assert [] + [Booted] == [Booted];
    }
    forall acc ensures IssuedIn([Booted], acc) == ConsumedIn([Booted], acc) == 0 {
      TotalsPush([], Booted, acc);
      assert [] + [Booted] == [Booted];
    }
  }

  lemma HistoryExtends(s: Sys, s': Sys, e: Event, a: AccountState)
    requires HistoryOk(s) && Extends(s, s', e, a) && Lawful(s.truth, s.mem.accounts, e, a)
    ensures HistoryOk(s')
  {
    hide Marks, Respects, Pays, Carries, ExactlyOnce, BarsKept, NeverOverspent, Authorised;
    ExactlyOnceStep(s.history, s.truth, e, a);
    BarsStep(s.history, s.truth, e, a);
    SpendStep(s.history, s.truth, e, a);
    AuthorisedStep(s.history, e);
    LiveStep(s.history, s.mem.accounts, e, a);
  }

  lemma HistoryIdles(s: Sys, s': Sys)
    requires HistoryOk(s) && Idles(s, s')
    ensures HistoryOk(s')
  {
    ExactlyOnceIdle(s.history, s.truth);
    BarsIdle(s.history, s.truth);
    SpendIdle(s.history, s.truth);
    AuthorisedStep(s.history, Booted);
  }

  lemma CommitExtends(s: Sys, r: Request, io: Io, d: Decision)
    requires FencesFit(s.boot.limits) && SysOk(s) && HistoryOk(s)
    requires d == Decide(s.boot, s.mem, r) && d.Commit? && CommitDurable(io)
    ensures HistoryOk(ServeStep(s, r, io))
  {
    hide Decide, SysOk, ServeStep, Settled, DurableOf, Lawful, HistoryOk;
    DecisionDecides(s.boot, s.mem, r);
    CommitSteps(s, r, io, d);
    CommitIsLawful(s, r, d);
    HistoryExtends(s, ServeStep(s, r, io), EventOf(s.mem, r, d), Settled(s.boot.limits, d.after, r, d.outcome));
  }

  lemma HistoryStep(s: Sys, action: Action)
    requires FencesFit(s.boot.limits) && SysOk(s) && HistoryOk(s)
    ensures HistoryOk(Stepped(s, action))
  {
    hide Decide, SysOk, ServeStep, SnapshotStep, RebootStep;
    if Commits(s, action) {
      CommitExtends(s, action.request, action.io, Decide(s.boot, s.mem, action.request));
    } else {
      OtherSteps(s, action);
      HistoryIdles(s, Stepped(s, action));
    }
  }

  lemma {:induction false} RunHistory(boot: Boot, actions: seq<Action>)
    requires FencesFit(boot.limits) && Valid(boot, actions)
    ensures HistoryOk(RunOf(boot, actions))
    decreases |actions|
  {
    hide Enabled, Stepped;
    if actions == [] {
      StartHistory(boot);
    } else {
      var init, last := actions[..|actions| - 1], actions[|actions| - 1];
      RunHistory(boot, init);
      RunOk(boot, init);
      HistoryStep(RunOf(boot, init), last);
    }
  }

  /** Exactly once: over any number of boots, crashes and snapshots, the durable decisions of an incarnation use the
      slots 1, 2, 3, ... up to its watermark, each once and in order. */
  lemma DecidedExactlyOnce(boot: Boot, actions: seq<Action>, acc: u64, id: u64)
    requires FencesFit(boot.limits) && Valid(boot, actions)
    ensures var s := RunOf(boot, actions); SlotsOf(s.history, acc, id) == Upto(MarkOf(s.truth, acc, id))
  {
    hide RunOf;
    RunHistory(boot, actions);
  }

  /** Fences and retirements are permanent: no attempt of their target is decided later, in this boot or any other, and
      in particular no Reconcile re-opens it. */
  lemma ExclusionsArePermanent(boot: Boot, actions: seq<Action>)
    requires FencesFit(boot.limits) && Valid(boot, actions)
    ensures BarsHold(RunOf(boot, actions).history)
  {
    hide RunOf;
    RunHistory(boot, actions);
  }

  /** Authority: every applied operation other than Open and Reconcile follows, within its boot, its own incarnation's
      Open or Reconcile in the same era, with no era advance, retirement or fence of it in between. */
  lemma OperationsAreAuthorised(boot: Boot, actions: seq<Action>)
    requires FencesFit(boot.limits) && Valid(boot, actions)
    ensures Authorised(RunOf(boot, actions).history)
  {
    hide RunOf;
    RunHistory(boot, actions);
  }

  /** No double spend: accepted Consumes plus what is still spendable never exceed accepted Issues, over the whole
      history and over every segment that starts at an era advance. */
  lemma NothingIsSpentTwice(boot: Boot, actions: seq<Action>)
    requires FencesFit(boot.limits) && Valid(boot, actions)
    ensures var s := RunOf(boot, actions); NeverOverspent(s.history, s.truth)
  {
    hide RunOf, NeverOverspent;
    RunHistory(boot, actions);
  }
}
