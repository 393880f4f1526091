/** Recovery never guesses (src/engine.cpp:543-606, 745-766): whatever log it is given, an account that recovery
    accepts agrees with the live account whose commit was recorded, in everything the digest and totals cover. */
module Faithful {
  import opened Types
  import opened Digests
  import opened Ledger
  import opened Windows
  import opened Engine
  import opened Recovery
  import opened EngineInvariant
  import opened Snapshots

  /** The account with liveness withdrawn, as every boot starts. */
  function Quiet(a: AccountState): AccountState { a.(incarnations := Demoted(a.incarnations)) }

  /** The two accounts have the same configuration, era, capacity, counters, exhaustion latch, fences, bindings,
      watermarks and standing, reading Reconciled as Unknown, and the same totals. */
  ghost predicate Same(a: AccountState, b: AccountState) {
    HashedOf(Quiet(a)) == HashedOf(Quiet(b)) && a.totals == b.totals
  }

  ghost predicate SameAccounts(x: Accounts, y: Accounts) {
    x.Keys == y.Keys && forall k :: k in x ==> Same(x[k], y[k])
  }

  /** If recovery from `disk` succeeds at all, it finds these accounts. */
  ghost predicate DiskTells(limits: Limits, disk: Disk, truth: Accounts) {
    Replay(limits, disk).Good? ==> SameAccounts(Replay(limits, disk).value.accounts, truth)
  }

  // ---------------------------------------------------------------- hashing and standing

  lemma EqualStandings(x: map<u64, Record>, y: map<u64, Record>, k: u64)
    requires Standings(x) == Standings(y)
    ensures k in x <==> k in y
    ensures k in x ==> StandingOf(x[k]) == StandingOf(y[k])
  {
    assert k in Standings(x) <==> k in x;
    assert k in Standings(y) <==> k in y;
    if k in x { assert Standings(x)[k] == Standings(y)[k]; }
  }

  lemma DemotedStandings(x: map<u64, Record>, y: map<u64, Record>)
    requires Standings(x) == Standings(y)
    ensures Standings(Demoted(x)) == Standings(Demoted(y))
  {
    forall k ensures k in x <==> k in y {
      EqualStandings(x, y, k);
    }
    forall k | k in Demoted(x) ensures StandingOf(Demoted(x)[k]) == StandingOf(Demoted(y)[k]) {
      EqualStandings(x, y, k);
    }
  }

  lemma MarkedStandings(x: map<u64, Record>, y: map<u64, Record>, id: u64, sequence: u64)
    requires Standings(x) == Standings(y)
    ensures Standings(Marked(x, id, sequence)) == Standings(Marked(y, id, sequence))
  {
    forall k ensures k in x <==> k in y {
      EqualStandings(x, y, k);
    }
    var x', y' := Marked(x, id, sequence), Marked(y, id, sequence);
    forall k | k in x' ensures k in y' && StandingOf(x'[k]) == StandingOf(y'[k]) {
      EqualStandings(x, y, k);
    }
  }

  /** Everything two equal digests and equal totals fix. */
  lemma EqualDigests(a: AccountState, b: AccountState)
    requires AccountDigest(a) == AccountDigest(b) && a.totals == b.totals
    ensures Same(a, b)
  {
    DemotedStandings(a.incarnations, b.incarnations);
  }

  /** Publishing the same attempt on two accounts with equal digests keeps them the same. */
  lemma PublishedSame(limits: Limits, a: AccountState, b: AccountState, r: Request, o: Outcome, p: Outcome)
    requires AccountDigest(a) == AccountDigest(b) && a.totals == b.totals
    ensures Same(Published(a, r, p), Settled(limits, b, r, o))
  {
    hide Insert;
    MarkedStandings(a.incarnations, b.incarnations, r.authority.incarnation, r.sequence);
    DemotedStandings(Published(a, r, p).incarnations, Settled(limits, b, r, o).incarnations);
  }

  /** `Same` does not look at notes, window or refusals, and survives the boot-time reset. */
  lemma QuietSame(a: AccountState, b: AccountState)
    requires Same(a, b)
    ensures Same(Quiet(a), b)
  {
    assert Quiet(Quiet(a)) == Quiet(a);
  }

  lemma SamePut(x: Accounts, y: Accounts, id: u64, a: AccountState, b: AccountState)
    requires SameAccounts(x, y) && Same(a, b)
    ensures SameAccounts(x[id := a], y[id := b])
  {}

  // ---------------------------------------------------------------- one record

  /** An intent changes only pending notes. */
  lemma IntentTells(limits: Limits, accounts: Accounts, truth: Accounts, r: Request, sequence: nat)
    requires SameAccounts(accounts, truth)
    ensures SameAccounts(MarkedAmbiguous(limits, accounts, r, sequence), truth)
  {}

  /** A commit record that replay accepts rebuilds the account the live engine recorded. */
  lemma AttemptTells(limits: Limits, rep: EngineState, truth: Accounts, st: EngineState, r: Request, o: Outcome,
      after: AccountState)
    requires SameAccounts(rep.accounts, truth) && o.decided
    requires ReplayAttempt(limits, rep, AttemptOf(st, r, o, after)).Good?
    ensures SameAccounts(ReplayAttempt(limits, rep, AttemptOf(st, r, o, after)).value.accounts,
                         truth[r.authority.account := Settled(limits, after, r, o)])
  {
    hide Rebuilt, ViewOf, Published;
    var t := AttemptOf(st, r, o, after);
    var a := Rebuilt(limits, rep.accounts, t).value;
    assert Verdict(a, t.account).None?;
    PublishedSame(limits, a, after, r, o, o.(view := ViewOf(a)));
    SamePut(rep.accounts, truth, r.authority.account, Published(a, r, o.(view := ViewOf(a))),
            Settled(limits, after, r, o));
  }

  /** The listed accounts were recorded of `accounts`, whatever else the listing says. */
  ghost predicate RecordedOf(accounts: Accounts, ds: seq<DurableAccount<Digest>>) {
    forall i :: 0 <= i < |ds| ==>
      && ds[i].config.account in accounts
      && ds[i].stateDigest == AccountDigest(accounts[ds[i].config.account])
      && ds[i].totals == accounts[ds[i].config.account].totals
  }

  lemma {:induction false} RestoreTells(limits: Limits, accounts: Accounts, ds: seq<DurableAccount<Digest>>)
    requires RecordedOf(accounts, ds) && RestoredAccounts(limits, ds).Good?
    ensures var restored := RestoredAccounts(limits, ds).value;
            restored.Keys == Ids(ds) && forall k :: k in restored ==> k in accounts && Same(restored[k], accounts[k])
  {
    if ds != [] {
      var shorter, d := ds[..|ds| - 1], ds[|ds| - 1];
      RestoreTells(limits, accounts, shorter);
      IdsPush(ds);
      EqualDigests(RestoredAccount(limits, d), accounts[d.config.account]);
      assert RestoredAccounts(limits, ds).value == RestoredAccounts(limits,
          shorter).value[d.config.account := RestoredAccount(limits, d)];
    }
  }

  lemma SameTransitive(a: AccountState, b: AccountState, c: AccountState)
    requires Same(a, b) && Same(b, c)
    ensures Same(a, c)
  {}

  /** A snapshot of a live engine that agrees with the truth restores, if it restores, to the truth. */
  lemma SnapshotTells(limits: Limits, st: EngineState, truth: Accounts, onto: EngineState, ds: DurableState<Digest>,
      code: nat)
    requires CapturesAll(st, ds) && SameAccounts(st.accounts, truth)
    requires RestoredState(limits, onto, st.next, st.chain, ds, code).Good?
    ensures SameAccounts(RestoredState(limits, onto, st.next, st.chain, ds, code).value.accounts, truth)
  {
    hide RestoredAccounts, Same, AccountDigest;
    RestoreTells(limits, st.accounts, ds.accounts);
    CapturesEveryone(st, ds);
    var restored := RestoredAccounts(limits, ds.accounts).value;
    forall k | k in restored ensures Same(restored[k], truth[k]) {
      SameTransitive(restored[k], st.accounts[k], truth[k]);
    }
  }

  /** Recovery withdraws liveness and nothing else. */
  lemma RecoverTells(limits: Limits, disk: Disk, truth: Accounts)
    requires DiskTells(limits, disk, truth) && Recover(limits, disk).Good?
    ensures SameAccounts(Recover(limits, disk).value.accounts, truth)
  {
    hide Replay, Same;
    var rep := Replay(limits, disk).value;
    forall k | k in rep.accounts ensures Same(Quiet(rep.accounts[k]), truth[k]) {
      QuietSame(rep.accounts[k], truth[k]);
    }
    assert forall k :: k in rep.accounts ==> Unreconciled(rep.accounts)[k] == Quiet(rep.accounts[k]);
  }

  // ---------------------------------------------------------------- what agreement carries over

  lemma SameFields(a: AccountState, b: AccountState, k: u64)
    requires Same(a, b)
    ensures a.config == b.config && a.epoch == b.epoch && a.generation == b.generation && a.capacity == b.capacity
    ensures a.totals == b.totals && a.fences == b.fences && a.hardExhausted == b.hardExhausted
    ensures a.exhaustionCause == b.exhaustionCause
    ensures a.committedAttempts == b.committedAttempts && a.refusedAttempts == b.refusedAttempts
    ensures k in a.incarnations <==> k in b.incarnations
    ensures Watermark(a, k) == Watermark(b, k)
    ensures k in a.incarnations ==>
              var x, y := a.incarnations[k], b.incarnations[k];
              && x.id == y.id && x.committedOps == y.committedOps && x.refusedOps == y.refusedOps
              && x.producer == y.producer && x.consumer == y.consumer && x.grant == y.grant
              && (x.state == Fenced <==> y.state == Fenced) && (x.state == Retired <==> y.state == Retired)
  {
    EqualStandings(Demoted(a.incarnations), Demoted(b.incarnations), k);
  }

  /** The invariant of the truth holds of any account that agrees with it and whose live incarnations are of its era. */
  lemma SameOk(limits: Limits, a: AccountState, b: AccountState)
    requires Same(a, b) && AccountOk(limits, b)
    requires forall k :: k in a.incarnations && a.incarnations[k].state == Reconciled ==>
               IsLive(a.incarnations[k], a.epoch, a.generation)
    ensures AccountOk(limits, a)
  {
    SameFields(a, b, 0);
    forall k ensures k in a.incarnations <==> k in b.incarnations {
      SameFields(a, b, k);
    }
    assert a.incarnations.Keys == b.incarnations.Keys;
    forall k | k in a.incarnations ensures RecordOk(k, a.incarnations[k], a.epoch, a.generation, a.fences) {
      SameFields(a, b, k);
      assert RecordOk(k, b.incarnations[k], b.epoch, b.generation, b.fences);
    }
    SameTallies(a, b);
    assert |a.incarnations| == |a.incarnations.Keys|;
    assert |b.incarnations| == |b.incarnations.Keys|;
  }

  lemma SameTallies(a: AccountState, b: AccountState)
    requires Same(a, b)
    ensures CommittedOps(a.incarnations) == CommittedOps(b.incarnations)
    ensures RefusedOps(a.incarnations) == RefusedOps(b.incarnations)
  {
    forall k ensures k in a.incarnations <==> k in b.incarnations
      ensures k in a.incarnations ==> a.incarnations[k].committedOps == b.incarnations[k].committedOps
      ensures k in a.incarnations ==> a.incarnations[k].refusedOps == b.incarnations[k].refusedOps
    {
      SameFields(a, b, k);
    }
  }
}
