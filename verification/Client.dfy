/** The client's slot placement against the engine's watermark (src/coordinator.cpp:206-402), with requests and
    responses lost at will. A client is the only user of its incarnation; other clients come and go under other
    incarnations. */
module Clients {
  import opened Types
  import opened Digests
  import opened Windows
  import opened Engine
  import opened Recovery
  import opened EngineInvariant
  import opened Serving
  import opened CreditEngines
  import opened Journals

  /** What becomes of one exchange on the wire. */
  datatype Delivery = Delivered | RequestLost | ResponseLost

  /** The engine serves, and was never restored from a snapshot. */
  ghost predicate Serves(engine: CreditEngine)
    reads engine, engine.journal
  {
    engine.Ready() && FencesFit(engine.boot.limits) && ServerOk(engine.boot.limits, engine.accounts)
  }

  /** What the engine's part of an exchange leaves for the client: its watermark moves with a decision or not at all,
      and a proper request is never told it is misplaced. */
  ghost predicate Answers(before: Accounts, after: Accounts, r: Request, o: Outcome) {
    var mark, mark' := MarkOf(before, r.authority.account, r.authority.incarnation), MarkOf(after, r.authority.account,
        r.authority.incarnation);
    && !Misplaces(o.status.reason)
    && mark' == (if o.decided then r.sequence else mark) && (o.decided ==> r.sequence == mark + 1)
    && (r.op.Describe? ==>
           !o.decided && (o.status.Ok() ==> o.sequence == mark && o.authority.account == r.authority.account != 0))
    && (!r.op.Describe? && o.status.Ok() ==> o.decided)
    && IdsOf(after, r.authority.account) <= IdsOf(before, r.authority.account) + {r.attempt}
  }

  lemma FinishAnswers(boot: Boot, st: EngineState, disk: Disk, r: Request, io: Io, d: Decision)
    requires FencesFit(boot.limits) && ServerOk(boot.limits, st.accounts) && Proper(st.accounts, r) && Plain(io)
    requires d == Decide(boot, st, r)
    ensures var f := Finish(boot.limits, st, disk, r, io, d);
            ServerOk(boot.limits, f.state.accounts) && Answers(st.accounts, f.state.accounts, r, f.outcome)
  {
    hide ServerOk, Decide, Finish, Proper, Plain, IdsOf;
    CallMoves(boot, st, disk, r, io, d);
    ProperTells(boot, st, r);
    FinishTold(boot.limits, st, disk, r, io, d);
    CommitTold(boot, st, r, d);
  }

  lemma CommitTold(boot: Boot, st: EngineState, r: Request, d: Decision)
    requires d == Decide(boot, st, r)
    ensures d.Commit? ==> d.outcome.decided
  {}

  lemma FinishTold(limits: Limits, st: EngineState, disk: Disk, r: Request, io: Io, d: Decision)
    requires Plain(io) && !Misplaces(d.outcome.status.reason)
    ensures var o := Finish(limits, st, disk, r, io, d).outcome;
            && !Misplaces(o.status.reason)
            && (!d.Commit? || io == ALL_WRITTEN ==> o == d.outcome)
            && (d.Commit? && io != ALL_WRITTEN ==> !o.decided && !o.status.Ok())
  {}

  lemma SlotIsProper(accounts: Accounts, r: Request)
    requires (r.op.Open? && r.sequence == 1) || r.sequence ==
               MarkOf(accounts, r.authority.account, r.authority.incarnation) + 1
    requires r.attempt !in IdsOf(accounts, r.authority.account)
    ensures Proper(accounts, r)
  {}

  class CoordinatorClient {
    const domain: u64
    const incarnation: Incarnation
    /** The attempt-id generator: the n-th id it draws. */
    const attemptOf: nat -> Digest128
    var challenge: Digest128
    var nextSequence: u64
    var authority: AuthorityVector
    var drawn: nat
    var connected: bool
    var placed: bool

    ghost predicate FreshIds()
    {
      forall m, n :: attemptOf(m) == attemptOf(n) ==> m == n
    }

    function Mark(accounts: Accounts, account: u64): u64 { MarkOf(accounts, account, incarnation.id) }

    /** No id still to be drawn is known to the engine, and the authority held is this client's own. */
    ghost predicate Acquainted(accounts: Accounts, account: u64)
      reads this
    {
      FreshIds() && Unseen(accounts, account,
                           drawn) && (authority.account != 0 ==> authority.incarnation == incarnation.id)
    }

    /** Never ahead of the engine, and in step with it while connected and placed, as long as sequence numbers last. */
    ghost predicate InStep(accounts: Accounts, account: u64)
      reads this
    {
      && Acquainted(accounts, account)
      && nextSequence <= Mark(accounts, account) + 1
      && (connected && placed && Mark(accounts, account) + 1 < TWO64 ==> nextSequence == Mark(accounts, account) + 1)
    }

    ghost predicate Unseen(accounts: Accounts, account: u64, from: nat)
    {
      forall n :: from <= n ==> attemptOf(n) !in IdsOf(accounts, account)
    }

    /** Calls of other incarnations, under ids that are not this client's to draw, leave the client in step. */
    lemma OthersKeepStep(boot: Boot, st: EngineState, disk: Disk, r: Request, io: Io, account: u64)
      requires FencesFit(boot.limits) && ServerOk(boot.limits, st.accounts) && InStep(st.accounts, account)
      requires r.authority.incarnation != incarnation.id && forall n :: drawn <= n ==> attemptOf(n) != r.attempt
      ensures var after := Engine.Apply(boot, st, disk, r, io).state.accounts;
              ServerOk(boot.limits, after) && InStep(after, account) && Mark(after, account) == Mark(st.accounts,
                  account)
    {
      hide ServerOk, Decide, Finish, IdsOf;
      var d := Decide(boot, st, r);
      CallMoves(boot, st, disk, r, io, d);
    }

    constructor (domain: u64, incarnation: Incarnation, attemptOf: nat -> Digest128)
      ensures nextSequence == 1 && !connected && !placed && drawn == 0 && authority.account == 0
      ensures this.domain == domain && this.incarnation == incarnation && this.attemptOf == attemptOf
    {
      this.domain, this.incarnation, this.attemptOf := domain, incarnation, attemptOf;
      challenge, nextSequence, authority := Digest128(0, 0), 1, AuthorityVector(0, 0, 0, 0, 0);
      drawn, connected, placed := 0, false, false;
    }

    /** `connect`: a new session must discover its place again. */
    method Connect(challenge: Digest128)
      modifies this
      ensures connected && !placed && nextSequence == old(nextSequence) && drawn == old(drawn)
      ensures authority == old(authority)
    {
      this.challenge := challenge;
      connected, placed := true, false;
    }

    method NextAttempt() returns (id: Digest128)
      modifies `drawn
      ensures id == attemptOf(old(drawn)) && drawn == old(drawn) + 1
    {
      id := attemptOf(drawn);
      drawn := drawn + 1;
    }

    /** One request and its response, either of which may be lost; a loss ends the session. */
    method Exchange(engine: CreditEngine, r: Request, delivery: Delivery, io: Io) returns (o: Outcome)
      requires Serves(engine) && Plain(io) && (connected ==> Proper(engine.accounts, r))
      modifies this`connected, this`nextSequence, this`authority, engine, engine.journal
      ensures Serves(engine) && (connected ==> old(connected)) && !Misplaces(o.status.reason)
      ensures var mark, mark' := MarkOf(old(engine.accounts), r.authority.account, r.authority.incarnation),
                                 MarkOf(engine.accounts, r.authority.account, r.authority.incarnation);
              mark <= mark' <= mark + 1 && (r.op.Describe? ==> mark' == mark)
      ensures IdsOf(engine.accounts, r.authority.account) <=
                IdsOf(old(engine.accounts), r.authority.account) + {r.attempt}
      ensures connected ==> Answers(old(engine.accounts), engine.accounts, r, o)
      ensures nextSequence == if connected && o.decided then WrapInc(r.sequence) else old(nextSequence)
      ensures o.status.Ok() ==> connected
      ensures authority == old(authority) || authority.incarnation == incarnation.id
    {
      hide ServerOk, Decide, Finish, Proper, Plain, IdsOf;
      o := Blank(r);
      if !connected { return o.(status := Status(TRANSPORT_ERROR, 21)); }
      if delivery.RequestLost? {
        connected := false;
        return o.(status := Status(TRANSPORT_ERROR, 22));
      }
      FinishAnswers(engine.boot, engine.State(), engine.journal.Contents(), r, io,
                    Decide(engine.boot, engine.State(), r));
      o := engine.Apply(r, io);
      if delivery.ResponseLost? {
        connected := false;
        return Blank(r).(status := Status(TRANSPORT_ERROR, 22));
      }
      if o.decided { nextSequence := WrapInc(r.sequence); }
      if o.authority.account != 0 {
        authority := AuthorityVector(o.authority.domain, o.authority.account,
                                     if o.authority.epoch != 0 then o.authority.epoch else authority.epoch,
                                     if o.authority.generation != 0 then o.authority.generation else authority.generation,
                                     incarnation.id);
      }
    }

    /** `describe`: learn the account's era and this incarnation's watermark. */
    method Describe(engine: CreditEngine, account: u64, delivery: Delivery, io: Io) returns (o: Outcome)
      requires Serves(engine) && Plain(io) && Acquainted(engine.accounts, account)
      modifies this, engine, engine.journal
      ensures Serves(engine) && Acquainted(engine.accounts, account) && !Misplaces(o.status.reason)
      ensures Mark(engine.accounts, account) == old(Mark(engine.accounts, account))
      ensures nextSequence == old(nextSequence) && placed == old(placed) && drawn == old(drawn) + 1
      ensures (connected ==> old(connected))
      ensures o.status.Ok() ==>
                connected && o.sequence == Mark(engine.accounts, account) && o.authority.account == account != 0
      ensures IdsOf(engine.accounts, account) <= old(IdsOf(engine.accounts, account)) + {attemptOf(old(drawn))}
    {
      hide ServerOk, IdsOf;
      var attempt := NextAttempt();
      var r := BlankRequest(attempt, OpKind.Describe, nextSequence,
                            AuthorityVector(domain, account, 0, 0, incarnation.id), incarnation, ZERO);
      o := Exchange(engine, r, delivery, io);
    }

    /** Exchange a request that takes the next slot, or opens: the client stays in step whatever is lost. */
    method Send(engine: CreditEngine, account: u64, r: Request, delivery: Delivery, io: Io) returns (o: Outcome)
      requires Serves(engine) && Plain(io) && InStep(engine.accounts, account)
      requires r.authority.account == account && r.authority.incarnation == incarnation.id && !r.op.Describe?
      requires connected ==> (r.op.Open? && r.sequence == 1) || r.sequence == Mark(engine.accounts, account) + 1
      requires r.attempt !in IdsOf(engine.accounts, account) && forall n :: drawn <= n ==> attemptOf(n) != r.attempt
      modifies this`connected, this`nextSequence, this`authority, engine, engine.journal
      ensures Serves(engine) && InStep(engine.accounts, account) && !Misplaces(o.status.reason)
      ensures old(Mark(engine.accounts, account)) <= Mark(engine.accounts, account) <=
                old(Mark(engine.accounts, account)) + 1
      ensures IdsOf(engine.accounts, account) <= old(IdsOf(engine.accounts, account)) + {r.attempt}
      ensures o.status.Ok() ==> connected && (Mark(engine.accounts, account) + 1 < TWO64 ==>
                  nextSequence == Mark(engine.accounts, account) + 1)
      ensures authority == old(authority) || authority.incarnation == incarnation.id
    {
      hide ServerOk, IdsOf, Proper, MarkOf;
      if connected { SlotIsProper(engine.accounts, r); }
      o := Exchange(engine, r, delivery, io);
    }

    /** `reconcile`: take the next slot from the engine's own watermark, and prove liveness in the described era. */
    method Reconcile(engine: CreditEngine, account: u64, fate: nat -> (Delivery, Io)) returns (o: Outcome)
      requires Serves(engine) && (forall i :: Plain(fate(i).1)) && InStep(engine.accounts, account)
      requires Mark(engine.accounts, account) + 1 < TWO64
      modifies this, engine, engine.journal
      ensures Serves(engine) && InStep(engine.accounts, account) && !Misplaces(o.status.reason)
      ensures old(Mark(engine.accounts, account)) <= Mark(engine.accounts, account) <=
                old(Mark(engine.accounts, account)) + 1
      ensures o.status.Ok() ==> connected && placed && authority.account == account
    {
      hide ServerOk, IdsOf;
      var description := Describe(engine, account, fate(0).0, fate(0).1);
      if !description.status.Ok() { return description; }
      nextSequence := WrapInc(description.sequence);
      var vector := AuthorityVector(domain, account, description.authority.epoch, description.authority.generation,
                                    incarnation.id);
      var attempt := NextAttempt();
      var r := BlankRequest(attempt, OpKind.Reconcile, nextSequence, vector, incarnation,
                            OfProof(challenge, incarnation, vector));
      o := Send(engine, account, r, fate(1).0, fate(1).1);
      if o.status.Ok() {
        authority := vector;
        placed := true;
      }
    }

    /** The description a client that is not placed asks for: it learns the era and its own watermark at once. The place
        it takes is the slot after the watermark, unless it already counted further, on this account or on another. */
    method Place(engine: CreditEngine, account: u64, fate: nat -> (Delivery, Io)) returns (o: Outcome)
      requires Serves(engine) && (forall i :: Plain(fate(i).1)) && Acquainted(engine.accounts, account)
      requires Mark(engine.accounts, account) + 1 < TWO64
      modifies this, engine, engine.journal
      ensures Serves(engine) && Acquainted(engine.accounts, account) && !Misplaces(o.status.reason)
      ensures Mark(engine.accounts, account) == old(Mark(engine.accounts, account)) && drawn == old(drawn) + 1
      ensures !o.status.Ok() ==>
                nextSequence == old(nextSequence) && placed == old(placed) && (connected ==> old(connected))
      ensures o.status.Ok() ==>
                && connected && placed && authority.account == account
                && nextSequence >= Mark(engine.accounts, account) + 1
                && (nextSequence == Mark(engine.accounts, account) + 1 <==>
                       old(nextSequence) <= Mark(engine.accounts, account) + 1)
      ensures IdsOf(engine.accounts, account) <= old(IdsOf(engine.accounts, account)) + {attemptOf(old(drawn))}
    {
      hide ServerOk, IdsOf;
      o := Describe(engine, account, fate(0).0, fate(0).1);
      if !o.status.Ok() { return; }
      authority := o.authority.(domain := domain, incarnation := incarnation.id);
      if WrapInc(o.sequence) > nextSequence { nextSequence := WrapInc(o.sequence); }
      placed := true;
    }

    /** `submit` of an Open: slot 1 of the first era. */
    method SubmitOpen(engine: CreditEngine, request: Request, delivery: Delivery, io: Io) returns (o: Outcome)
      requires Serves(engine) && Plain(io) && request.op.Open? && InStep(engine.accounts, request.config.account)
      modifies this, engine, engine.journal
      ensures Serves(engine) && InStep(engine.accounts, request.config.account) && !Misplaces(o.status.reason)
      ensures Mark(engine.accounts, request.config.account) <= old(Mark(engine.accounts, request.config.account)) + 1
    {
      hide ServerOk, IdsOf;
      var attempt := NextAttempt();
      var vector := AuthorityVector(request.config.domain, request.config.account, 1, 1, incarnation.id);
      o := Send(engine, request.config.account,
                request.(presenter := incarnation, attempt := attempt, authority := vector, sequence := 1,
                    proof := OfProof(challenge, incarnation, vector)),
                delivery, io);
    }

    /** `submit`: place the client if it is not, send, and when the engine demands revalidation, reconcile once and
        resend. Whatever is lost on the way, no request it sends is refused as a gap or as stale. */
    method Submit(engine: CreditEngine, request: Request, fate: nat -> (Delivery, Io)) returns (o: Outcome)
      requires Serves(engine) && (forall i :: Plain(fate(i).1)) && !request.op.Open? && !request.op.Describe?
      requires InStep(engine.accounts, request.authority.account) && request.authority.account != 0
      requires Mark(engine.accounts, request.authority.account) + 3 < TWO64
      modifies this, engine, engine.journal
      ensures Serves(engine) && InStep(engine.accounts, request.authority.account) && !Misplaces(o.status.reason)
      ensures var mark := old(Mark(engine.accounts, request.authority.account));
              mark <= Mark(engine.accounts, request.authority.account) <= mark + 3
    {
      hide ServerOk, IdsOf;
      var account := request.authority.account;
      var first := NextAttempt();
      if !placed || authority.account == 0 || authority.account != account {
        var description := Place(engine, account, fate);
        if !description.status.Ok() { return description; }
      }
      o := Send(engine, account, request.(presenter := incarnation, attempt := first, sequence := nextSequence,
          authority := authority), fate(1).0, fate(1).1);
      if o.status.reason == RECONCILIATION_REQUIRED || o.status.reason == STALE_AUTHORITY || o.status.reason == UNKNOWN_INCARNATION {
        o := Resubmit(engine, request, fate);
      }
    }

    method Resubmit(engine: CreditEngine, request: Request, fate: nat -> (Delivery, Io)) returns (o: Outcome)
      requires Serves(engine) && (forall i :: Plain(fate(i).1)) && !request.op.Open? && !request.op.Describe?
      requires InStep(engine.accounts, request.authority.account) && request.authority.account != 0
      requires Mark(engine.accounts, request.authority.account) + 2 < TWO64
      modifies this, engine, engine.journal
      ensures Serves(engine) && InStep(engine.accounts, request.authority.account) && !Misplaces(o.status.reason)
      ensures var mark := old(Mark(engine.accounts, request.authority.account));
              mark <= Mark(engine.accounts, request.authority.account) <= mark + 2
    {
      hide ServerOk, IdsOf;
      var account := request.authority.account;
      var revalidated := Reconcile(engine, account, i requires 0 <= i => fate(i + 2));
      if !revalidated.status.Ok() { return revalidated; }
      var retry := NextAttempt();
      o := Send(engine, account, request.(presenter := incarnation, attempt := retry, sequence := nextSequence,
          authority := authority), fate(4).0, fate(4).1);
    }
  }

  // ---------------------------------------------------------------- whole runs of a client

  /** What happens next: the client acts, or another client's call reaches the engine. */
  datatype Step =
    | Connects(challenge: Digest128)
    | Describes(delivery: Delivery, io: Io)
    | Reconciles(fate: nat -> (Delivery, Io))
    | Opens(open: Request, delivery: Delivery, io: Io)
    | Submits(request: Request, fate: nat -> (Delivery, Io))
    | OtherCalls(other: Request, io: Io)

  /** The client works on one account, and other clients use neither its incarnation nor the ids it draws. */
  ghost predicate Allowed(id: u64, attemptOf: nat -> Digest128, account: u64, step: Step) {
    match step
    case Connects(_) => true
    case Describes(_, io) => Plain(io)
    case Reconciles(fate) => forall i :: Plain(fate(i).1)
    case Opens(r, _, io) => r.op.Open? && r.config.account == account && Plain(io)
    case Submits(r, fate) =>
      !r.op.Open? && !r.op.Describe? && r.authority.account == account && forall i :: Plain(fate(i).1)
    case OtherCalls(r, _) => r.authority.incarnation != id && forall n :: attemptOf(n) != r.attempt
  }

  /** One step, and what the client was told, if it asked. */
  method Take(client: CoordinatorClient, engine: CreditEngine, account: u64, step: Step) returns (told: Option<Outcome>)
    requires Serves(engine) && client.InStep(engine.accounts, account) && account != 0
    requires Allowed(client.incarnation.id, client.attemptOf, account, step)
    requires client.Mark(engine.accounts, account) + 3 < TWO64
    modifies client, engine, engine.journal
    ensures Serves(engine) && client.InStep(engine.accounts, account)
    ensures client.Mark(engine.accounts, account) <= old(client.Mark(engine.accounts, account)) + 3
    ensures told.Some? ==> !Misplaces(told.value.status.reason)
  {
    hide ServerOk, IdsOf, Plain, MarkOf, Apply;
    told := None;
    match step {
      case Connects(challenge) => client.Connect(challenge);
      case Describes(delivery, io) => var o := client.Describe(engine, account, delivery, io); told := Some(o);
      case Reconciles(fate) => var o := client.Reconcile(engine, account, fate); told := Some(o);
      case Opens(r, delivery, io) => var o := client.SubmitOpen(engine, r, delivery, io); told := Some(o);
      case Submits(r, fate) => var o := client.Submit(engine, r, fate); told := Some(o);
      case OtherCalls(r, io) =>
        client.OthersKeepStep(engine.boot, engine.State(), engine.journal.Contents(), r, io, account);
        var _ := engine.Apply(r, io);
    }
  }

  /** Any list of steps, with any losses and any failures of the engine's journal: the client stays in step, and nothing
      it sends is ever refused as a gap or as stale, as long as sequence numbers last. */
  method Drive(client: CoordinatorClient, engine: CreditEngine, account: u64,
      steps: seq<Step>) returns (told: seq<Outcome>)
    requires Serves(engine) && client.InStep(engine.accounts, account) && account != 0
    requires forall i :: 0 <= i < |steps| ==> Allowed(client.incarnation.id, client.attemptOf, account, steps[i])
    requires client.Mark(engine.accounts, account) + 3 * |steps| < TWO64
    modifies client, engine, engine.journal
    ensures Serves(engine) && client.InStep(engine.accounts, account)
    ensures forall i :: 0 <= i < |told| ==> !Misplaces(told[i].status.reason)
  {
    hide ServerOk, IdsOf, Allowed, MarkOf;
    told := [];
    for i := 0 to |steps|
      invariant Serves(engine) && client.InStep(engine.accounts, account)
      invariant client.Mark(engine.accounts, account) + 3 * (|steps| - i) < TWO64
      invariant forall j :: 0 <= j < |told| ==> !Misplaces(told[j].status.reason)
    {
      var o := Take(client, engine, account, steps[i]);
      if o.Some? { told := told + [o.value]; }
    }
  }

  /** From nothing: a new journal, engine and client, and any list of steps. */
  method DriveFromStart(boot: Boot, domain: u64, incarnation: Incarnation, attemptOf: nat -> Digest128, account: u64,
      steps: seq<Step>)
      returns (told: seq<Outcome>)
    requires FencesFit(Clamp(boot.limits)) && account != 0 && 3 * |steps| < TWO64
    requires forall m, n :: attemptOf(m) == attemptOf(n) ==> m == n
    requires forall i :: 0 <= i < |steps| ==> Allowed(incarnation.id, attemptOf, account, steps[i])
    ensures forall i :: 0 <= i < |told| ==> !Misplaces(told[i].status.reason)
  {
    hide Allowed;
    var journal := new InMemoryJournal();
    var engine := new CreditEngine(boot, journal);
    var status := engine.Recover();
    var client := new CoordinatorClient(domain, incarnation, attemptOf);
    told := Drive(client, engine, account, steps);
  }

  function BlankRequest(attempt: Digest128, op: OpKind, sequence: u64, authority: AuthorityVector,
      presenter: Incarnation,
      proof: Digest): Request {
    CreditRequest(attempt, op, sequence, authority, presenter, 0, 0, 0, 0, 0, 0, 0, proof, ZERO,
                  AccountConfig(0, 0, 0, 0, 0, 0, Abstract,
                                CreditPolicy(1, 0xFFFF_FFFF_FFFF_FFFF, true, true, false)), Undecided, OK, [])
  }
}
