/** Repeated requests over whole runs (src/engine.cpp:939-975): a decided slot is never decided again, in any boot and
    whatever the window remembers; and within its boot a remembered request is answered as it was decided. */
module Repeats {
  import opened Types
  import opened Digests
  import opened Ledger
  import opened Windows
  import opened Engine
  import opened EngineInvariant
  import opened LiveReplay
  import opened Faithful
  import opened System
  import opened Decisions
  import opened Histories
  import opened WindowRuns

  function KeyOf(r: Request): Key { Key(r.authority.incarnation, r.sequence) }

  lemma {:induction false} SlotIsListed(h: seq<Event>, i: nat, acc: u64, id: u64)
    requires i < |h| && IsDecisionBy(h[i], acc, id)
    ensures h[i].attempt.request.sequence in SlotsOf(h, acc, id)
    decreases |h|
  {
    var init, last := h[..|h| - 1], h[|h| - 1];
    if i < |init| { SlotIsListed(init, i, acc, id); }
  }

  /** Every decided slot is at or below its incarnation's watermark. */
  lemma SlotsAreBelow(h: seq<Event>, truth: Accounts, i: nat)
    requires ExactlyOnce(h, truth) && i < |h| && h[i].Committed?
    ensures var r := h[i].attempt.request; 0 < r.sequence <= MarkOf(truth, r.authority.account, r.authority.incarnation)
  {
    var r := h[i].attempt.request;
    SlotIsListed(h, i, r.authority.account, r.authority.incarnation);
    assert SlotsOf(h, r.authority.account,
                   r.authority.incarnation) == Upto(MarkOf(truth, r.authority.account, r.authority.incarnation));
  }

  /** No request for a slot that was ever durably decided is decided again, in this boot or any later one, whatever it
      asks for and whatever the windows have evicted: it is answered, and neither memory nor disk changes. */
  lemma NeverDecidedAgain(boot: Boot, actions: seq<Action>, i: nat, r: Request, io: Io)
    requires FencesFit(boot.limits) && Valid(boot, actions)
    requires var h := RunOf(boot, actions).history;
             && i < |h| && IsDecisionBy(h[i], r.authority.account, r.authority.incarnation)
             && h[i].attempt.request.sequence == r.sequence
    ensures var s := RunOf(boot, actions);
            var after := Apply(s.boot, s.mem, s.disk, r, io);
            && after.state == s.mem && after.disk == s.disk && after.outcome == Decide(s.boot, s.mem, r).outcome
            && !after.outcome.applied
  {
    hide Decide, RunOf, Valid, CommitFor;
    var s := RunOf(boot, actions);
    var d := Decide(s.boot, s.mem, r);
    RunOk(boot, actions);
    RunHistory(boot, actions);
    SlotsAreBelow(s.history, s.truth, i);
    NeverLeaks(s, r);
    if d.Commit? { CommitIsLawful(s, r, d); }
  }

  lemma NeverLeaks(s: Sys, r: Request)
    requires FencesFit(s.boot.limits) && SysOk(s)
    ensures !Decide(s.boot, s.mem, r).Leak?
    ensures (Decide(s.boot, s.mem, r).Reply? ==> !Decide(s.boot, s.mem, r).outcome.applied)
  {
    hide Decide, DiskTells, SameAccounts;
    RepliesApplyNothing(s.boot, s.mem, r);
    if Up(s.mem) { DecisionKeeps(s.boot, s.mem, r); } else { IdleReplies(s.boot, s.mem, r); }
  }

  lemma RepliesApplyNothing(boot: Boot, st: EngineState, r: Request)
    ensures Decide(boot, st, r).Reply? ==> !Decide(boot, st, r).outcome.applied
  {
    hide Structural, StandingRefusal, Placement, ControlEffect, DataEffect, OpenRefusal;
  }

  // ---------------------------------------------------------------- what the window remembers

  /** Every decision whose key the window holds is held as it was decided. */
  ghost predicate Remembers(h: seq<Event>, acc: u64, w: Window) {
    forall i :: 0 <= i < |h| && IsOn(h[i], acc) && KeyOf(h[i].attempt.request) in w.byKey ==>
      w.byKey[KeyOf(h[i].attempt.request)] == EntryOf(h[i].attempt.request, h[i].attempt.outcome)
  }

  ghost predicate AllRemember(h: seq<Event>, accounts: Accounts) {
    forall acc :: acc in accounts ==> Remembers(h, acc, accounts[acc].window)
  }

  lemma RememberPush(h: seq<Event>, e: Event, acc: u64, w: Window, w': Window)
    requires e.Committed? && IsOn(e, acc) && Remembers(h, acc, w)
    requires Grows(w, w', EntryOf(e.attempt.request, e.attempt.outcome))
    requires forall i :: 0 <= i < |h| && IsOn(h[i], acc) ==> KeyOf(h[i].attempt.request) != KeyOf(e.attempt.request)
    ensures Remembers(h + [e], acc, w')
  {
    var h' := h + [e];
    forall i | 0 <= i < |h'| && IsOn(h'[i], acc) && KeyOf(h'[i].attempt.request) in w'.byKey
      ensures w'.byKey[KeyOf(h'[i].attempt.request)] == EntryOf(h'[i].attempt.request, h'[i].attempt.outcome)
    {
      if i < |h| { assert h'[i] == h[i]; }
    }
  }

  /** A decision takes a key no earlier decision on its account has. */
  lemma NewKey(h: seq<Event>, truth: Accounts, e: Event, a: AccountState)
    requires ExactlyOnce(h, truth) && e.Committed? && Marks(truth, e, a)
    ensures var acc := e.attempt.request.authority.account;
            forall i :: 0 <= i < |h| && IsOn(h[i], acc) ==> KeyOf(h[i].attempt.request) != KeyOf(e.attempt.request)
  {
    var acc := e.attempt.request.authority.account;
    forall i | 0 <= i < |h| && IsOn(h[i], acc) ensures KeyOf(h[i].attempt.request) != KeyOf(e.attempt.request) {
      SlotsAreBelow(h, truth, i);
    }
  }

  lemma {:induction false} NoEventsNoKeys(h: seq<Event>, acc: u64)
    requires KeysOf(h, acc) == []
    ensures forall i :: 0 <= i < |h| ==> !IsOn(h[i], acc)
  {
    if h != [] { NoEventsNoKeys(h[..|h| - 1], acc); }
  }

  lemma CommitRemembers(s: Sys, r: Request, d: Decision, e: Event, a: AccountState)
    requires FencesFit(s.boot.limits) && SysOk(s) && WindowsOk(s) && ExactlyOnce(s.history, s.truth)
    requires AllRemember(s.history, s.truth)
    requires d == Decide(s.boot, s.mem, r) && d.Commit? && e == EventOf(s.mem, r, d)
    requires a == Settled(s.boot.limits, d.after, r, d.outcome)
    ensures Remembers(s.history + [e], r.authority.account, a.window)
  {
    hide SysOk, Decide, DecideOn, Settled, AccountOk, Same, Agrees, Grows, ExactlyOnce;
    var acc := r.authority.account;
    CommitForms(s, r, d);
    CommitIsLawful(s, r, d);
    NewKey(s.history, s.truth, e, a);
    assert WindowIs(s.boot.limits, s.history, s.truth, acc);
    if r.op.Open? {
      NoEventsNoKeys(s.history, acc);
      OpenWindow(s.boot.limits, r, d.outcome);
      RememberPush(s.history, e, acc, EmptyWindow(s.boot.limits.maxWindow), a.window);
    } else {
      DecisionWindow(s.boot, s.mem.accounts[acc], r, d);
      RememberPush(s.history, e, acc, s.truth[acc].window, a.window);
    }
  }

  lemma RememberExtends(s: Sys, s': Sys, e: Event, a: AccountState)
    requires AllRemember(s.history, s.truth) && Extends(s, s', e, a)
    requires Remembers(s.history + [e], e.attempt.request.authority.account, a.window)
    ensures AllRemember(s'.history, s'.truth)
  {
    forall acc | acc in s'.truth ensures Remembers(s'.history, acc, s'.truth[acc].window) {
      if acc != e.attempt.request.authority.account { RememberOther(s.history, e, acc, s.truth[acc].window); }
    }
  }

  lemma RememberOther(h: seq<Event>, e: Event, acc: u64, w: Window)
    requires Remembers(h, acc, w) && !IsOn(e, acc)
    ensures Remembers(h + [e], acc, w)
  {
    var h' := h + [e];
    forall i | 0 <= i < |h'| && IsOn(h'[i], acc) && KeyOf(h'[i].attempt.request) in w.byKey
      ensures w.byKey[KeyOf(h'[i].attempt.request)] == EntryOf(h'[i].attempt.request, h'[i].attempt.outcome)
    {
      assert h'[i] == h[i];
    }
  }

  lemma RememberStep(s: Sys, action: Action)
    requires FencesFit(s.boot.limits) && SysOk(s) && WindowsOk(s) && ExactlyOnce(s.history, s.truth)
    requires AllRemember(s.history, s.truth)
    requires !action.Reboot?
    ensures AllRemember(Stepped(s, action).history, Stepped(s, action).truth)
  {
    hide Decide, SysOk, WindowsOk, ExactlyOnce, Settled, ServeStep, SnapshotStep, RebootStep, DurableOf;
    if Commits(s, action) {
      var r := action.request;
      var d := Decide(s.boot, s.mem, r);
      var e, a := EventOf(s.mem, r, d), Settled(s.boot.limits, d.after, r, d.outcome);
      CommitSteps(s, r, action.io, d);
      CommitRemembers(s, r, d, e, a);
      RememberExtends(s, Stepped(s, action), e, a);
    } else {
      OtherSteps(s, action);
      KeepsHistory(s, action);
    }
  }

  /** Every decided request passed the structural checks of this boot. */
  ghost predicate WellShaped(h: seq<Event>, boot: Boot) {
    forall i :: 0 <= i < |h| && h[i].Committed? ==>
      Structural(boot, h[i].attempt.request).None? && !h[i].attempt.request.op.Describe?
  }

  lemma CommitWellShaped(boot: Boot, st: EngineState, r: Request)
    requires Decide(boot, st, r).Commit?
    ensures Structural(boot, r).None? && !r.op.Describe?
  {}

  lemma SameBoot(s: Sys, action: Action)
    requires !action.Reboot?
    ensures Stepped(s, action).boot == s.boot
  {
    hide RebootStep, Decide, Finish, Settled, AttemptOf;
  }

  lemma WellShapedStep(s: Sys, action: Action)
    requires FencesFit(s.boot.limits) && SysOk(s) && !action.Reboot? && WellShaped(s.history, s.boot)
    ensures WellShaped(Stepped(s, action).history, s.boot)
  {
    hide Decide, SysOk, Structural, Settled, DurableOf;
    if Commits(s, action) {
      CommitSteps(s, action.request, action.io, Decide(s.boot, s.mem, action.request));
      CommitWellShaped(s.boot, s.mem, action.request);
    } else {
      OtherSteps(s, action);
      KeepsHistory(s, action);
    }
  }

  lemma {:induction false} RunRemembers(boot: Boot, actions: seq<Action>)
    requires FencesFit(boot.limits) && Valid(boot, actions) && OneBoot(actions)
    ensures AllRemember(RunOf(boot, actions).history, RunOf(boot, actions).truth)
    ensures RunOf(boot, actions).boot == boot && WellShaped(RunOf(boot, actions).history, boot)
    decreases |actions|
  {
    hide Stepped;
    if actions != [] {
      var init, last := actions[..|actions| - 1], actions[|actions| - 1];
      RunRemembers(boot, init);
      RunOk(boot, init);
      RunHistory(boot, init);
      RunWindows(boot, init);
      RememberStep(RunOf(boot, init), last);
      SameBoot(RunOf(boot, init), last);
      WellShapedStep(RunOf(boot, init), last);
    }
  }

  /** Exactly when a request is answered as a duplicate. */
  lemma DuplicateIff(boot: Boot, st: EngineState, r: Request)
    ensures Decide(boot, st, r).outcome.duplicate <==>
              && Up(st) && Structural(boot, r).None? && !r.op.Open? && !r.op.Describe?
              && r.authority.account in st.accounts
              && StandingRefusal(boot, st.accounts[r.authority.account], r).None?
              && Placement(st.accounts[r.authority.account], r).Duplicate?
  {
    hide Structural, StandingRefusal, Placement, ControlEffect, DataEffect, OpenRefusal;
  }

  lemma DuplicateStatus(boot: Boot, st: EngineState, r: Request)
    requires Decide(boot, st, r).outcome.duplicate
    ensures r.authority.account in st.accounts && KeyOf(r) in st.accounts[r.authority.account].window.byKey
    ensures Decide(boot, st, r).outcome.status == st.accounts[r.authority.account].window.byKey[KeyOf(r)].status
  {
    hide ControlEffect, DataEffect;
    DuplicateIff(boot, st, r);
    RepeatIsAbsorbed(boot, st.accounts[r.authority.account], r);
  }

  /** The account still recognises the era and standing the request was made with. */
  predicate Current(boot: Boot, st: EngineState, r: Request) {
    Up(st) && r.authority.account in st.accounts && StandingRefusal(boot, st.accounts[r.authority.account], r).None?
  }

  lemma HeldOrEvicted(s: Sys, i: nat)
    requires WindowsOk(s) && AllRemember(s.history, s.truth) && i < |s.history| && s.history[i].Committed?
    requires var r := s.history[i].attempt.request; Up(s.mem) && r.authority.account in s.mem.accounts
    ensures var t := s.history[i].attempt;
            var acc := t.request.authority.account;
            var w := s.mem.accounts[acc].window;
            && (KeyOf(t.request) in w.byKey <==>
                   KeyOf(t.request) in Last(KeysOf(s.history, acc), s.boot.limits.maxWindow))
            && (KeyOf(t.request) in w.byKey ==> w.byKey[KeyOf(t.request)] == EntryOf(t.request, t.outcome))
  {
    var acc := s.history[i].attempt.request.authority.account;
    assert WindowIs(s.boot.limits, s.history, s.truth, acc);
    assert Remembers(s.history, acc, s.truth[acc].window);
    assert IsOn(s.history[i], acc);
  }

  /** In every run of one boot, the repeat of a decided request changes neither memory nor disk. It is answered as a
      duplicate, with the status it was decided with, if and only if it is not an Open, its era and standing are
      current, and it is among the newest `maxWindow` decisions of its account. */
  lemma RepeatsAreAbsorbed(boot: Boot, actions: seq<Action>, i: nat, io: Io)
    requires FencesFit(boot.limits) && Valid(boot, actions) && OneBoot(actions)
    requires i < |RunOf(boot, actions).history| && RunOf(boot, actions).history[i].Committed?
    ensures var s := RunOf(boot, actions);
            var t := s.history[i].attempt;
            var r, after := t.request, Apply(s.boot, s.mem, s.disk, t.request, io);
            && after.state == s.mem && after.disk == s.disk && !after.outcome.applied
            && (after.outcome.duplicate <==>
                  && !r.op.Open? && Current(s.boot, s.mem, r)
                  && KeyOf(r) in Last(KeysOf(s.history, r.authority.account), boot.limits.maxWindow))
            && (after.outcome.duplicate ==> after.outcome.status == t.outcome.status)
  {
    hide Decide, RunOf, Valid, Structural, StandingRefusal, Apply, Last, KeysOf, WindowsOk, Remembers, WellShaped;
    hide AllRemember;
    var s := RunOf(boot, actions);
    var t := s.history[i].attempt;
    var r, acc := t.request, t.request.authority.account;
    NeverDecidedAgain(boot, actions, i, r, io);
    RunWindows(boot, actions);
    RunRemembers(boot, actions);
    ShapedAt(s.history, boot, i);
    DuplicateIff(s.boot, s.mem, r);
    if Up(s.mem) && acc in s.mem.accounts { HeldOrEvicted(s, i); }
    if Decide(s.boot, s.mem, r).outcome.duplicate { DuplicateStatus(s.boot, s.mem, r); }
  }

  lemma ShapedAt(h: seq<Event>, boot: Boot, i: nat)
    requires WellShaped(h, boot) && i < |h| && h[i].Committed?
    ensures Structural(boot, h[i].attempt.request).None? && !h[i].attempt.request.op.Describe?
  {}
}
