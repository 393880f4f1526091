/** Memory against storage under append failures (src/engine.cpp:361-429, 847-856, 1169-1178, 1342-1351, 1383-1428). */
module Storage {
  import opened Types
  import opened Digests
  import opened Ledger
  import opened Windows
  import opened Engine
  import opened EngineInvariant
  import opened LiveReplay
  import opened Decisions

  /** The caller is told of a fresh decision: not a repeat, and not an attempt id or slot in conflict with one. */
  predicate TellsDecision(o: Outcome) { o.decided && !o.duplicate && o.status.reason != ATTEMPT_CONFLICT }

  /** The disk ends in the commit record of this decision. */
  predicate EndsIn(disk: Disk, r: Request, o: Outcome) {
    && disk.log != []
    && var last := disk.log[|disk.log| - 1];
       last.AttemptRecord? && last.attempt.request == r && last.attempt.outcome == o
  }

  /** A freshly decided outcome is returned only if its commit record is durable. */
  lemma OutcomeIsDurable(boot: Boot, st: EngineState, disk: Disk, r: Request, io: Io)
    requires TellsDecision(Apply(boot, st, disk, r, io).outcome)
    ensures EndsIn(Apply(boot, st, disk, r, io).disk, r, Apply(boot, st, disk, r, io).outcome)
  {
    var d := Decide(boot, st, r);
  }

  // ---------------------------------------------------------------- rollback

  /** The record keeps its identity, watermark and counters; it may only lose liveness or gain a binding. */
  predicate RecordRestored(x: Record, y: Record) {
    && y == x.(state := y.state, producer := y.producer, consumer := y.consumer, grant := y.grant)
    && (y.state == x.state || (x.state == Reconciled && y.state == Unknown))
  }

  /** Ledger, capacity, era, exhaustion latch, counters, fences, window and watermarks are those of `a`. */
  predicate AccountRestored(a: AccountState, b: AccountState) {
    && b == a.(incarnations := b.incarnations)
    && b.incarnations.Keys == a.incarnations.Keys
    && forall k :: k in a.incarnations ==> RecordRestored(a.incarnations[k], b.incarnations[k])
  }

  ghost predicate AccountsRestored(x: Accounts, y: Accounts) {
    y.Keys == x.Keys && forall k :: k in x ==> AccountRestored(x[k], y[k])
  }

  lemma BoundRestores(a: AccountState, r: Request)
    requires r.authority.incarnation in a.incarnations
    ensures var id := r.authority.incarnation;
            AccountRestored(a, a.(incarnations := a.incarnations[id := Bound(a.incarnations[id], r).0]))
  {
    BoundKeepsRecord(a.incarnations[r.authority.incarnation], r);
  }

  /** Whatever a decision was, what it falls back to is the account it started from. */
  lemma DecisionRestores(boot: Boot, a: AccountState, r: Request)
    requires DecideOn(boot, a, r).Commit?
    ensures DecideOn(boot, a, r).fallback.Some? && AccountRestored(a, DecideOn(boot, a, r).fallback.value)
  {
    hide DecideOn, ControlEffect, DataEffect;
    var e := EffectOf(boot, a, r);
    CommitIsAdmitted(boot, a, r);
    if e.Declined? {
      DeclinedKeeps(boot, a, r, e);
      if NewlyBinds(a, r) { BoundRestores(a, r); }
    }
  }

  lemma DecideRestores(boot: Boot, st: EngineState, r: Request)
    requires Decide(boot, st, r).Commit?
    ensures AccountsRestored(st.accounts, Restore(st.accounts, r.authority.account, Decide(boot, st, r).fallback))
  {
    if !r.op.Open? { DecisionRestores(boot, st.accounts[r.authority.account], r); }
  }

  /** The engine latched, with the accounts, chain and counts it had. */
  ghost predicate Latched(st: EngineState, st': EngineState) {
    && st'.failed && st'.recovered == st.recovered && st'.chain == st.chain
    && st'.applied == st.applied && st'.refused == st.refused && st'.snapshots == st.snapshots
    && st.next <= st'.next <= st.next + 1
    && AccountsRestored(st.accounts, st'.accounts)
  }

  /** The disk is ahead of the engine by at most the two records of this decision. */
  predicate Ahead(st: EngineState, disk: Disk, r: Request, d: Decision, disk': Disk) {
    || disk' == disk || disk' == Appended(disk, [IntentFor(st, r)])
    || (d.Commit? && disk' == Appended(disk, [IntentFor(st, r), CommitFor(st, r, d.outcome, d.after)]))
  }

  /** A failed append: the caller is told of no decision, memory is what it was and latched, and the log is ahead of it
      by at most the records of this one attempt. */
  lemma FailureRollsBack(boot: Boot, st: EngineState, disk: Disk, r: Request, io: Io, d: Decision)
    requires d == Decide(boot, st, r) && d.Commit? && io != ALL_WRITTEN
    ensures var after := Finish(boot.limits, st, disk, r, io, d);
            && Latched(st, after.state) && !after.outcome.decided && !after.outcome.applied
            && !after.outcome.status.Ok()
            && Ahead(st, disk, r, d, after.disk)
  {
    hide Decide, CommitFor, IntentFor;
    assert disk.log + [] == disk.log;
    DecideRestores(boot, st, r);
    FinishAccounts(boot.limits, st, disk, r, io, d);
  }

  /** A latched engine changes nothing, on disk or in memory, and decides nothing. */
  lemma LatchHolds(boot: Boot, st: EngineState, disk: Disk, r: Request, io: Io)
    requires st.failed
    ensures var after := Apply(boot, st, disk, r, io);
            && after.state == st && after.disk == disk && !after.outcome.decided && !after.outcome.applied
            && !after.outcome.status.Ok()
  {
    hide CommitFor, Settled, OpenDecision, DescribeOn, DecideOn;
  }

  // ---------------------------------------------------------------- runs

  datatype Call = Call(request: Request, io: Io)

  datatype World = World(state: EngineState, disk: Disk)

  /** The engine and disk after a sequence of calls, with whatever fates their appends meet. */
  function Served(boot: Boot, w: World, calls: seq<Call>): World {
    if calls == [] then w else
    var before, last := Served(boot, w, calls[..|calls| - 1]), calls[|calls| - 1];
    var after := Apply(boot, before.state, before.disk, last.request, last.io);
    World(after.state, after.disk)
  }

  /** The run failed at call `n`: memory is still what it was before that call, and the log is ahead of it by at most
      that one unacknowledged attempt. */
  ghost predicate FailedAt(boot: Boot, w: World, calls: seq<Call>, n: nat)
    requires n < |calls|
  {
    var before, after := Served(boot, w, calls[..n]), Served(boot, w, calls);
    && !before.state.failed && Latched(before.state, after.state)
    && Ahead(before.state, before.disk, calls[n].request, Decide(boot, before.state, calls[n].request), after.disk)
  }

  lemma ApplyFails(boot: Boot, st: EngineState, disk: Disk, r: Request, io: Io)
    requires !st.failed && Apply(boot, st, disk, r, io).state.failed
    ensures Decide(boot, st, r).Commit? && io != ALL_WRITTEN
  {
    hide Decide, CommitFor, Settled;
  }

  /** However long a failed run went on, its log is ahead of its memory by at most one attempt. */
  lemma {:induction false} AheadByOneAttempt(boot: Boot, w: World, calls: seq<Call>) returns (n: nat)
    requires !w.state.failed && Served(boot, w, calls).state.failed
    ensures n < |calls| && FailedAt(boot, w, calls, n)
    decreases |calls|
  {
    hide Finish, Decide, Latched, Ahead;
    var init, last := calls[..|calls| - 1], calls[|calls| - 1];
    var before := Served(boot, w, init);
    if before.state.failed {
      n := AheadByOneAttempt(boot, w, init);
      LatchHolds(boot, before.state, before.disk, last.request, last.io);
      assert init[..n] == calls[..n];
    } else {
      n := |calls| - 1;
      ApplyFails(boot, before.state, before.disk, last.request, last.io);
      FailureRollsBack(boot, before.state, before.disk, last.request, last.io,
                       Decide(boot, before.state, last.request));
    }
  }
}
