/** The attempt window over live runs (src/engine.cpp:198-274, 940-969, 1479-1493): in every boot that starts from an
    empty disk, the deque, the key map and the attempt-id map describe the same newest decided attempts. */
module WindowRuns {
  import opened Types
  import opened Digests
  import opened Ledger
  import opened Windows
  import opened Engine
  import opened Recovery
  import opened LiveReplay
  import opened EngineInvariant
  import opened Snapshots
  import opened Faithful
  import opened System
  import opened Decisions
  import opened Histories

  // ---------------------------------------------------------------- one decision

  /** Every slot the window remembers is at or below its incarnation's watermark. */
  ghost predicate WindowBelow(a: AccountState) {
    forall k :: k in a.window.byKey ==> 0 < k.sequence <= Watermark(a, k.incarnation)
  }

  ghost predicate WindowOk(limits: Limits, a: AccountState) {
    Agrees(a.window) && a.window.limit == limits.maxWindow && WindowBelow(a)
  }

  lemma SettledWindow(limits: Limits, a: AccountState, r: Request, o: Outcome)
    ensures Settled(limits, a, r, o).window == Insert(a.window, EntryOf(r, o))
  {}

  /** The window a decision leaves: the newest keys with its own at the end, its own entry, and otherwise only entries
      and attempt ids that were there. */
  ghost predicate Grows(w: Window, w': Window, e: Entry) {
    && w'.limit == w.limit && w'.order == Last(w.order + [e.key], w.limit)
    && e.key in w'.byKey && w'.byKey[e.key] == e && w'.byAttempt.Keys <= w.byAttempt.Keys + {e.attempt}
    && forall k :: k in w'.byKey && k != e.key ==> k in w.byKey && w'.byKey[k] == w.byKey[k]
  }

  /** A decision on an existing account keeps its window in agreement and appends its own slot. */
  lemma DecisionWindow(boot: Boot, a: AccountState, r: Request, d: Decision)
    requires FencesFit(boot.limits) && AccountOk(boot.limits, a) && WindowOk(boot.limits, a)
    requires r.authority.incarnation != 0
    requires d == DecideOn(boot, a, r) && d.Commit?
    ensures var a' := Settled(boot.limits, d.after, r, d.outcome);
            WindowOk(boot.limits, a') && Grows(a.window, a'.window, EntryOf(r, d.outcome))
  {
    hide DecideOn, Settled, Insert, Linked, AccountOk, StandingRefusal, EffectOf;
    var a', e := Settled(boot.limits, d.after, r, d.outcome), EntryOf(r, d.outcome);
    CommitIsAdmitted(boot, a, r);
    DecisionKeepsWindow(boot, a, r);
    SettledWindow(boot.limits, d.after, r, d.outcome);
    InsertKeepsAgreement(a.window, e);
    forall k | k in a'.window.byKey ensures 0 < k.sequence <= Watermark(a', k.incarnation) {
      SettledWatermarks(boot, a, r, k.incarnation);
      if k != e.key { assert k in a.window.byKey; }
    }
  }

  lemma EmptyAgrees(limit: nat)
    ensures Agrees(EmptyWindow(limit))
  {}

  lemma OpenWindow(limits: Limits, r: Request, o: Outcome)
    requires Clamped(limits) && o.applied && r.sequence == 1
    ensures var a := Settled(limits, Opened(limits, r), r, o);
            WindowOk(limits, a) && Grows(EmptyWindow(limits.maxWindow), a.window, EntryOf(r, o))
  {
    hide Settled, Insert, Linked;
    var empty := EmptyWindow(limits.maxWindow);
    SettledWindow(limits, Opened(limits, r), r, o);
    OpenMarks(limits, r, o);
    EmptyAgrees(limits.maxWindow);
    InsertKeepsAgreement(empty, EntryOf(r, o));
  }

  // ---------------------------------------------------------------- runs

  /** The keys of every decision on an account, oldest first. */
  function KeysOf(h: seq<Event>, acc: u64): seq<Key> {
    if h == [] then [] else
    var init, last := KeysOf(h[..|h| - 1], acc), h[|h| - 1];
    if IsOn(last, acc) then init + [Key(last.attempt.request.authority.incarnation, last.attempt.request.sequence)] else init
  }

  lemma KeysPush(h: seq<Event>, e: Event, acc: u64)
    ensures KeysOf(h + [e], acc) ==
            if IsOn(e, acc) then KeysOf(h, acc) + [Key(e.attempt.request.authority.incarnation, e.attempt.request.sequence)]
            else KeysOf(h, acc)
  {
    assert (h + [e])[..|h|] == h;
  }

  lemma LastPush<T>(s: seq<T>, x: T, n: nat)
    requires 0 < n
    ensures Last(Last(s, n) + [x], n) == Last(s + [x], n)
  {}

  ghost predicate WindowIs(limits: Limits, h: seq<Event>, accounts: Accounts, acc: u64) {
    && (acc !in accounts ==> KeysOf(h, acc) == [])
    && (acc in accounts ==>
          WindowOk(limits, accounts[acc]) && accounts[acc].window.order == Last(KeysOf(h, acc), limits.maxWindow))
  }

  /** The windows hold the newest decided slots, and memory holds the truth while it serves. */
  ghost predicate WindowsOk(s: Sys) {
    && (forall acc :: WindowIs(s.boot.limits, s.history, s.truth, acc))
    && (Up(s.mem) ==> s.mem.accounts == s.truth)
  }

  lemma CommitWindow(s: Sys, r: Request, d: Decision)
    requires FencesFit(s.boot.limits) && SysOk(s) && WindowsOk(s) && d == Decide(s.boot, s.mem, r) && d.Commit?
    ensures WindowIs(s.boot.limits, s.history + [EventOf(s.mem, r, d)],
                     s.truth[r.authority.account := Settled(s.boot.limits, d.after, r, d.outcome)], r.authority.account)
  {
    hide Decide, DecideOn, SysOk, AccountOk, Same, DurableOf, Settled, Agrees, WindowBelow;
    var acc, limits, e := r.authority.account, s.boot.limits, EventOf(s.mem, r, d);
    CommitForms(s, r, d);
    KeysPush(s.history, e, acc);
    assert WindowIs(limits, s.history, s.truth, acc);
    if r.op.Open? {
      OpenWindow(limits, r, d.outcome);
      assert [] + [Key(r.authority.incarnation, r.sequence)] == [Key(r.authority.incarnation, r.sequence)];
    } else {
      DecisionWindow(s.boot, s.mem.accounts[acc], r, d);
      LastPush(KeysOf(s.history, acc), Key(r.authority.incarnation, r.sequence), limits.maxWindow);
    }
  }

  lemma WindowsExtend(s: Sys, s': Sys, e: Event, a: AccountState)
    requires WindowsOk(s) && Extends(s, s', e, a) && s'.boot.limits == s.boot.limits
    requires WindowIs(s.boot.limits, s.history + [e], s.truth[e.attempt.request.authority.account := a], e.attempt.request.authority.account)
    ensures WindowsOk(s')
  {
    forall acc ensures WindowIs(s'.boot.limits, s'.history, s'.truth, acc) {
      assert WindowIs(s.boot.limits, s.history, s.truth, acc);
      KeysPush(s.history, e, acc);
    }
  }

  lemma WindowsStep(s: Sys, action: Action)
    requires FencesFit(s.boot.limits) && SysOk(s) && WindowsOk(s) && !action.Reboot?
    ensures WindowsOk(Stepped(s, action))
  {
    hide Decide, SysOk, Settled, SnapshotStep, RebootStep, Finish, DurableOf;
    NextKeepsLimits(s, action);
    if Commits(s, action) {
      var r := action.request;
      var d := Decide(s.boot, s.mem, r);
      CommitSteps(s, r, action.io, d);
      CommitWindow(s, r, d);
      WindowsExtend(s, Stepped(s, action), EventOf(s.mem, r, d), Settled(s.boot.limits, d.after, r, d.outcome));
    } else {
      OtherSteps(s, action);
      KeepsHistory(s, action);
    }
  }

  lemma KeepsHistory(s: Sys, action: Action)
    requires !Commits(s, action) && !action.Reboot?
    ensures Stepped(s, action).history == s.history
  {
    hide Decide, RebootStep, Finish, Settled, AttemptOf;
  }

  ghost predicate OneBoot(actions: seq<Action>) {
    forall i :: 0 <= i < |actions| ==> !actions[i].Reboot?
  }

  lemma {:induction false} RunWindows(boot: Boot, actions: seq<Action>)
    requires FencesFit(boot.limits) && Valid(boot, actions) && OneBoot(actions)
    ensures WindowsOk(RunOf(boot, actions)) && RunOf(boot, actions).boot.limits == boot.limits
    decreases |actions|
  {
    hide Enabled, Stepped;
    if actions == [] {
      forall acc ensures KeysOf([Booted], acc) == [] {
        KeysPush([], Booted, acc);
        assert [] + [Booted] == [Booted];
      }
    } else {
      var init, last := actions[..|actions| - 1], actions[|actions| - 1];
      RunWindows(boot, init);
      RunOk(boot, init);
      NextKeepsLimits(RunOf(boot, init), last);
      WindowsStep(RunOf(boot, init), last);
    }
  }

  /** In every run of one boot, whatever writes fail and whatever is snapshotted, an account's window is the newest
      `maxWindow` decided slots: its three containers agree, it has no duplicates, and nothing in it is above a
      watermark. */
  lemma WindowIsNewestDecisions(boot: Boot, actions: seq<Action>, acc: u64)
    requires FencesFit(boot.limits) && Valid(boot, actions) && OneBoot(actions)
    requires Up(RunOf(boot, actions).mem) && acc in RunOf(boot, actions).mem.accounts
    ensures var s := RunOf(boot, actions);
            var a := s.mem.accounts[acc];
            && Agrees(a.window) && WindowBelow(a) && |a.window.order| <= boot.limits.maxWindow
            && a.window.order == Last(KeysOf(s.history, acc), boot.limits.maxWindow)
  {
    hide RunOf, Agrees;
    RunWindows(boot, actions);
    var s := RunOf(boot, actions);
    assert WindowIs(s.boot.limits, s.history, s.truth, acc);
  }

  // ---------------------------------------------------------------- restored windows

  /** What the maps of a restored window hold. */
  ghost predicate Blind(w: Window, order: seq<Key>) {
    && (forall k :: k in w.byKey <==> k in order)
    && (forall k :: k in w.byKey ==> w.byKey[k].attempt == Digest128(0, 0) && w.byKey[k].key == k)
    && w.byAttempt == (if order == [] then map[] else map[Digest128(0, 0) := order[|order| - 1]])
  }

  lemma BlindPush(w: Window, order: seq<Key>, k: Key)
    requires Blind(w, order) && k !in order
    ensures Blind(Push(w, RestoredEntry((k.incarnation, k.sequence))), order + [k])
  {
    assert forall x :: x in order + [k] <==> x in order || x == k;
  }

  lemma {:induction false} RestoredContents(limit: nat, order: seq<Key>)
    requires 0 < limit && |order| <= limit && NoDuplicates(order)
    ensures Blind(RestoredWindow(limit, Slots(order)), order)
  {
    if order != [] {
      var shorter, last := order[..|order| - 1], order[|order| - 1];
      RestoredContents(limit, shorter);
      RestoredSlots(limit, shorter);
      assert Slots(order)[..|order| - 1] == Slots(shorter);
      assert shorter + [last] == order;
      BlindPush(RestoredWindow(limit, Slots(shorter)), shorter, last);
      InsertCases(RestoredWindow(limit, Slots(shorter)), RestoredEntry(Slots(order)[|order| - 1]));
    }
  }

  /** A snapshot stores slots without attempt ids, so the window it restores agrees with itself if and only if it holds
      at most one slot: the attempt-id map remembers just the newest. */
  lemma RestoredAgreesIff(limit: nat, order: seq<Key>)
    requires 0 < limit && |order| <= limit && NoDuplicates(order)
    ensures Agrees(RestoredWindow(limit, Slots(order))) <==> |order| <= 1
  {
    var w := RestoredWindow(limit, Slots(order));
    RestoredContents(limit, order);
    RestoredSlots(limit, order);
    if |order| >= 2 {
      assert order[0] in w.byKey;
    }
  }
}
