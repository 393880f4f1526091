/** State evidence has no ABA (src/engine.cpp:312-357, 878-896, 1161-1335): two equal account digests, observed at
    any two moments of a run, mean that no attempt on the account was decided between them, so a control operation
    accepted with `expectedState` acts on the very ledger that was observed. */
module Evidence {
  import opened Types
  import opened Digests
  import opened Ledger
  import opened Windows
  import opened Engine
  import opened Recovery
  import opened EngineInvariant
  import opened Faithful
  import opened System
  import opened Decisions
  import opened Histories

  // ---------------------------------------------------------------- counters count decisions

  /** How many decisions on the account the history holds. */
  function DecisionsOn(h: seq<Event>, acc: u64): nat {
    if h == [] then 0 else DecisionsOn(h[..|h| - 1], acc) + (if IsOn(h[|h| - 1], acc) then 1 else 0)
  }

  function Tally(truth: Accounts, acc: u64): nat {
    if acc in truth then truth[acc].committedAttempts + truth[acc].refusedAttempts else 0
  }

  ghost predicate Counted(h: seq<Event>, truth: Accounts) {
    forall acc :: DecisionsOn(h, acc) == Tally(truth, acc)
  }

  lemma DecisionsPush(h: seq<Event>, e: Event, acc: u64)
    ensures DecisionsOn(h + [e], acc) == DecisionsOn(h, acc) + (if IsOn(e, acc) then 1 else 0)
  {
    assert (h + [e])[..|h|] == h;
  }

  lemma EffectKeepsTally(boot: Boot, a: AccountState, r: Request, e: Effect)
    requires e == EffectOf(boot, a, r) && (e.Changed? || e.Declined?)
    ensures e.account.committedAttempts == a.committedAttempts && e.account.refusedAttempts == a.refusedAttempts
  {
    hide Planned, LedgerVerdict;
  }

  lemma SettledTally(boot: Boot, a: AccountState, r: Request, d: Decision)
    requires d == DecideOn(boot, a, r) && d.Commit?
    ensures var a' := Settled(boot.limits, d.after, r, d.outcome);
            a'.committedAttempts + a'.refusedAttempts == a.committedAttempts + a.refusedAttempts + 1
  {
    CommitIsAdmitted(boot, a, r);
    EffectKeepsTally(boot, a, r, EffectOf(boot, a, r));
  }

  lemma CommitCounts(s: Sys, r: Request, d: Decision)
    requires SysOk(s) && d == Decide(s.boot, s.mem, r) && d.Commit?
    ensures var a := Settled(s.boot.limits, d.after, r, d.outcome);
            a.committedAttempts + a.refusedAttempts == Tally(s.truth, r.authority.account) + 1
  {
    hide SysOk;
    CommitForms(s, r, d);
    if !r.op.Open? {
      var acc := r.authority.account;
      SettledTally(s.boot, s.mem.accounts[acc], r, d);
      SameFields(s.mem.accounts[acc], s.truth[acc], 0);
    }
  }

  lemma CountedExtends(s: Sys, s': Sys, e: Event, a: AccountState)
    requires Counted(s.history, s.truth) && Extends(s, s', e, a)
    requires a.committedAttempts + a.refusedAttempts == Tally(s.truth, e.attempt.request.authority.account) + 1
    ensures Counted(s'.history, s'.truth)
  {
    forall acc ensures DecisionsOn(s'.history, acc) == Tally(s'.truth, acc) {
      DecisionsPush(s.history, e, acc);
      assert DecisionsOn(s.history, acc) == Tally(s.truth, acc);
    }
  }

  lemma CountedIdles(s: Sys, s': Sys)
    requires Counted(s.history, s.truth) && Idles(s, s')
    ensures Counted(s'.history, s'.truth)
  {
    forall acc ensures DecisionsOn(s'.history, acc) == Tally(s'.truth, acc) {
      DecisionsPush(s.history, Booted, acc);
      assert DecisionsOn(s.history, acc) == Tally(s.truth, acc);
    }
  }

  // ---------------------------------------------------------------- steps never forget

  /** The history only grows, and an account without a new decision keeps its truth. */
  ghost predicate Follows(s: Sys, s': Sys, acc: u64) {
    && DecisionsOn(s.history, acc) <= DecisionsOn(s'.history, acc)
    && (DecisionsOn(s.history, acc) == DecisionsOn(s'.history, acc) && acc in s.truth ==>
           acc in s'.truth && s'.truth[acc] == s.truth[acc])
    && s.history <= s'.history
  }

  lemma StepFollows(s: Sys, action: Action, acc: u64)
    requires FencesFit(s.boot.limits) && SysOk(s)
    ensures Follows(s, Stepped(s, action), acc)
    ensures Counted(s.history, s.truth) ==> Counted(Stepped(s, action).history, Stepped(s, action).truth)
  {
    hide Decide, AccountsOk, DiskTells, ServeStep, RebootStep, Published, DurableOf;
    var s' := Stepped(s, action);
    if Commits(s, action) {
      var r := action.request;
      var d := Decide(s.boot, s.mem, r);
      var a, e := Settled(s.boot.limits, d.after, r, d.outcome), EventOf(s.mem, r, d);
      CommitSteps(s, r, action.io, d);
      CommitCounts(s, r, d);
      ExtendsFollows(s, s', e, a, acc);
      if Counted(s.history, s.truth) { CountedExtends(s, s', e, a); }
    } else {
      OtherSteps(s, action);
      IdlesFollows(s, s', acc);
      if Counted(s.history, s.truth) { CountedIdles(s, s'); }
    }
  }

  lemma ExtendsFollows(s: Sys, s': Sys, e: Event, a: AccountState, acc: u64)
    requires Extends(s, s', e, a)
    ensures Follows(s, s', acc)
  {
    DecisionsPush(s.history, e, acc);
  }

  lemma IdlesFollows(s: Sys, s': Sys, acc: u64)
    requires Idles(s, s')
    ensures Follows(s, s', acc)
  {
    DecisionsPush(s.history, Booted, acc);
  }

  lemma {:induction false} ValidPrefix(boot: Boot, actions: seq<Action>, n: nat)
    requires Valid(boot, actions) && n <= |actions|
    ensures Valid(boot, actions[..n])
    decreases |actions|
  {
    hide Enabled, RunOf;
    if n < |actions| {
      var init := actions[..|actions| - 1];
      ValidPrefix(boot, init, n);
      assert init[..n] == actions[..n];
    } else {
      assert actions[..n] == actions;
    }
  }

  lemma {:induction false} RunCounted(boot: Boot, actions: seq<Action>)
    requires FencesFit(boot.limits) && Valid(boot, actions)
    ensures Counted(RunOf(boot, actions).history, RunOf(boot, actions).truth)
    decreases |actions|
  {
    hide Enabled, Stepped;
    if actions == [] {
      forall acc ensures DecisionsOn([Booted], acc) == 0 {
        DecisionsPush([], Booted, acc);
        assert [] + [Booted] == [Booted];
      }
    } else {
      var init := actions[..|actions| - 1];
      RunCounted(boot, init);
      RunOk(boot, init);
      StepFollows(RunOf(boot, init), actions[|actions| - 1], 0);
    }
  }

  lemma {:induction false} RunFollows(boot: Boot, actions: seq<Action>, n: nat, acc: u64)
    requires FencesFit(boot.limits) && Valid(boot, actions) && n <= |actions|
    ensures Follows(RunOf(boot, actions[..n]), RunOf(boot, actions), acc)
    decreases |actions|
  {
    hide Enabled, Stepped;
    if n == |actions| {
      assert actions[..n] == actions;
    } else {
      var init := actions[..|actions| - 1];
      RunFollows(boot, init, n, acc);
      assert init[..n] == actions[..n];
      RunOk(boot, init);
      StepFollows(RunOf(boot, init), actions[|actions| - 1], acc);
    }
  }

  // ---------------------------------------------------------------- the theorem

  /** No attempt on the account was decided between the two moments. */
  ghost predicate Undisturbed(s: Sys, t: Sys, acc: u64) {
    && s.history <= t.history
    && forall i :: |s.history| <= i < |t.history| ==> !IsOn(t.history[i], acc)
  }

  lemma {:induction false} NoneBetween(h: seq<Event>, h': seq<Event>, acc: u64)
    requires h <= h' && DecisionsOn(h, acc) == DecisionsOn(h', acc)
    ensures forall i :: |h| <= i < |h'| ==> !IsOn(h'[i], acc)
    decreases |h'|
  {
    if |h| < |h'| {
      var init := h'[..|h'| - 1];
      DecisionsGrow(h, init, acc);
      NoneBetween(h, init, acc);
    }
  }

  lemma {:induction false} DecisionsGrow(h: seq<Event>, h': seq<Event>, acc: u64)
    requires h <= h'
    ensures DecisionsOn(h, acc) <= DecisionsOn(h', acc)
    decreases |h'|
  {
    if |h| < |h'| { DecisionsGrow(h, h'[..|h'| - 1], acc); } else { assert h == h'; }
  }

  lemma LiveAgrees(s: Sys, acc: u64)
    requires SysOk(s) && Up(s.mem) && acc in s.mem.accounts
    ensures acc in s.truth && Same(s.mem.accounts[acc], s.truth[acc])
    ensures s.mem.accounts[acc].totals == s.truth[acc].totals
    ensures s.mem.accounts[acc].committedAttempts + s.mem.accounts[acc].refusedAttempts == Tally(s.truth, acc)
  {
    hide Same, AccountsOk, DiskTells;
    SameFields(s.mem.accounts[acc], s.truth[acc], 0);
  }

  /** No ABA: the digest does not hash `spent`, yet two equal digests at any two moments of a run, in the same boot
      or not, mean an undisturbed account with the same totals, `spent` among them. */
  lemma EqualEvidence(boot: Boot, actions: seq<Action>, n: nat, acc: u64)
    requires FencesFit(boot.limits) && Valid(boot, actions) && n <= |actions|
    requires var s, t := RunOf(boot, actions[..n]), RunOf(boot, actions);
             && Up(s.mem) && Up(t.mem) && acc in s.mem.accounts && acc in t.mem.accounts
             && AccountDigest(s.mem.accounts[acc]) == AccountDigest(t.mem.accounts[acc])
    ensures var s, t := RunOf(boot, actions[..n]), RunOf(boot, actions);
            Undisturbed(s, t, acc) && s.mem.accounts[acc].totals == t.mem.accounts[acc].totals
  {
    hide RunOf;
    var s, t := RunOf(boot, actions[..n]), RunOf(boot, actions);
    ValidPrefix(boot, actions, n);
    RunOk(boot, actions[..n]);
    RunOk(boot, actions);
    RunCounted(boot, actions[..n]);
    RunCounted(boot, actions);
    RunFollows(boot, actions, n, acc);
    LiveAgrees(s, acc);
    LiveAgrees(t, acc);
    EvidenceAt(s, t, acc);
  }

  lemma EvidenceAt(s: Sys, t: Sys, acc: u64)
    requires Counted(s.history, s.truth) && Counted(t.history, t.truth) && Follows(s, t, acc)
    requires acc in s.mem.accounts && acc in t.mem.accounts && acc in s.truth && acc in t.truth
    requires s.mem.accounts[acc].totals == s.truth[acc].totals && t.mem.accounts[acc].totals == t.truth[acc].totals
    requires s.mem.accounts[acc].committedAttempts + s.mem.accounts[acc].refusedAttempts == Tally(s.truth, acc)
    requires t.mem.accounts[acc].committedAttempts + t.mem.accounts[acc].refusedAttempts == Tally(t.truth, acc)
    requires AccountDigest(s.mem.accounts[acc]) == AccountDigest(t.mem.accounts[acc])
    ensures Undisturbed(s, t, acc) && s.mem.accounts[acc].totals == t.mem.accounts[acc].totals
  {
    assert DecisionsOn(s.history, acc) == Tally(s.truth, acc);
    assert DecisionsOn(t.history, acc) == Tally(t.truth, acc);
    NoneBetween(s.history, t.history, acc);
  }

  /** What a successful Describe reports is the digest of the live account. */
  lemma DescribeObserves(boot: Boot, st: EngineState, r: Request)
    requires Up(st) && r.op.Describe? && Decide(boot, st, r).outcome.status.Ok()
    ensures r.authority.account in st.accounts
    ensures Decide(boot, st, r).outcome.stateDigest == AccountDigest(st.accounts[r.authority.account])
  {
    hide AccountDigest, OpenDecision, DecideOn, ViewOf;
  }

  /** A control operation naming evidence is decided only on an account with that digest. */
  lemma EvidenceIsChecked(boot: Boot, st: EngineState, r: Request)
    requires Decide(boot, st, r).Commit? && IsControl(r.op) && !r.op.Open? && r.expectedState != ZERO
    ensures Up(st) && r.authority.account in st.accounts
    ensures r.expectedState == AccountDigest(st.accounts[r.authority.account])
  {
    var a := st.accounts[r.authority.account];
    assert Decide(boot, st, r) == DecideOn(boot, a, r);
    CommitIsAdmitted(boot, a, r);
    assert !ControlEffect(boot.limits, a, r).Denied?;
  }

  /** A control operation whose `expectedState` was read by a Describe earlier in the run is decided only on the
      undisturbed account, with exactly the totals the Describe saw. */
  lemma EvidenceBinds(boot: Boot, actions: seq<Action>, n: nat, describe: Request, r: Request)
    requires FencesFit(boot.limits) && Valid(boot, actions) && n <= |actions|
    requires var s, t := RunOf(boot, actions[..n]), RunOf(boot, actions);
             && Up(s.mem) && describe.op.Describe? && describe.authority.account == r.authority.account
             && Decide(s.boot, s.mem, describe).outcome.status.Ok()
             && Decide(t.boot, t.mem, r).Commit? && IsControl(r.op) && !r.op.Open? && r.expectedState != ZERO
             && r.expectedState == Decide(s.boot, s.mem, describe).outcome.stateDigest
    ensures var s, t, acc := RunOf(boot, actions[..n]), RunOf(boot, actions), r.authority.account;
            && acc in s.mem.accounts && acc in t.mem.accounts && Undisturbed(s, t, acc)
            && s.mem.accounts[acc].totals == t.mem.accounts[acc].totals
  {
    hide RunOf, Decide;
    var s, t := RunOf(boot, actions[..n]), RunOf(boot, actions);
    DescribeObserves(s.boot, s.mem, describe);
    EvidenceIsChecked(t.boot, t.mem, r);
    EqualEvidence(boot, actions, n, r.authority.account);
  }
}
