/** The journal chain binds the log (src/engine.cpp:144-181, 579-592, 1408-1418): with injective digests, the chain
    value a log ends in fixes every attempt in it, so removing, reordering or rewriting one is detected. */
module Chains {
  import opened Types
  import opened Digests
  import opened Engine
  import opened Recovery

  /** What the chain binds of one attempt. */
  datatype Link = Link(sequence: nat, request: Request, outcome: Digest)

  function LinkOf(record: JournalRecord): Link
    requires record.AttemptRecord?
  {
    Link(record.sequence, record.attempt.request, OutcomeDigest(record.attempt.outcome))
  }

  /** The attempts of a log, in order. */
  function Links(log: seq<JournalRecord>): seq<Link> {
    if log == [] then [] else
    var init, last := Links(log[..|log| - 1]), log[|log| - 1];
    if last.AttemptRecord? then init + [LinkOf(last)] else init
  }

  function Extended(chain: Digest, l: Link): Digest { OfCommit(chain, l.sequence, OfRequest(l.request), l.outcome) }

  /** The chain value the log ends in, when every attempt carries the value computed from its predecessor. */
  function ChainEnd(start: Digest, log: seq<JournalRecord>): Option<Digest> {
    if log == [] then Some(start) else
    var init, last := ChainEnd(start, log[..|log| - 1]), log[|log| - 1];
    if init.None? || !last.AttemptRecord? then init
    else if last.chain == Extended(init.value, LinkOf(last)) then Some(last.chain) else None
  }

  /** The chain of a list of links. */
  function Chained(start: Digest, links: seq<Link>): Digest {
    if links == [] then start else Extended(Chained(start, links[..|links| - 1]), links[|links| - 1])
  }

  /** How many commits deep a chain value is. */
  function Depth(d: Digest): nat { if d.OfCommit? then 1 + Depth(d.previous) else 0 }

  lemma ChainedPush(start: Digest, links: seq<Link>, l: Link)
    ensures Chained(start, links + [l]) == Extended(Chained(start, links), l)
  {
    hide Extended;
    assert (links + [l])[..|links|] == links;
  }

  lemma {:induction false} EndIsChained(start: Digest, log: seq<JournalRecord>)
    requires ChainEnd(start, log).Some?
    ensures ChainEnd(start, log).value == Chained(start, Links(log))
  {
    hide Extended, LinkOf;
    if log != [] {
      var init, last := log[..|log| - 1], log[|log| - 1];
      EndIsChained(start, init);
      if last.AttemptRecord? { ChainedPush(start, Links(init), LinkOf(last)); }
    }
  }

  lemma {:induction false} ChainedDepth(start: Digest, links: seq<Link>)
    ensures Depth(Chained(start, links)) == Depth(start) + |links|
  {
    if links != [] { ChainedDepth(start, links[..|links| - 1]); }
  }

  lemma ExtendedInjective(c: Digest, d: Digest, l: Link, m: Link)
    requires Extended(c, l) == Extended(d, m)
    ensures c == d && l == m
  {}

  lemma Unpushed(links: seq<Link>)
    requires links != []
    ensures links == links[..|links| - 1] + [links[|links| - 1]]
  {}

  /** Equal chain values from one start come from equal lists. */
  lemma {:induction false} ChainedInjective(start: Digest, x: seq<Link>, y: seq<Link>)
    requires Chained(start, x) == Chained(start, y)
    ensures x == y
  {
    hide Depth, Extended;
    ChainedDepth(start, x);
    ChainedDepth(start, y);
    if x != [] {
      var x', y', l, m := x[..|x| - 1], y[..|y| - 1], x[|x| - 1], y[|y| - 1];
      ExtendedInjective(Chained(start, x'), Chained(start, y'), l, m);
      ChainedInjective(start, x', y');
      Unpushed(x);
      Unpushed(y);
    }
  }

  /** Two logs that start from one chain value, pass the chain check and end in one chain value carry the same attempts.
      */
  lemma ChainBinds(start: Digest, x: seq<JournalRecord>, y: seq<JournalRecord>)
    requires ChainEnd(start, x).Some? && ChainEnd(start, x) == ChainEnd(start, y)
    ensures Links(x) == Links(y)
  {
    EndIsChained(start, x);
    EndIsChained(start, y);
    ChainedInjective(start, Links(x), Links(y));
  }

  /** A log without embedded snapshots that recovery accepts passes the chain check, and recovery ends in its chain. */
  lemma {:induction false} ReplayChecksChain(limits: Limits, disk: Disk)
    requires disk.snapshot.None? && forall i :: 0 <= i < |disk.log| ==> !disk.log[i].SnapshotRecord?
    requires Replay(limits, disk).Good?
    ensures ChainEnd(ZERO, disk.log) == Some(Replay(limits, disk).value.chain)
    decreases |disk.log|
  {
    if disk.log != [] { ReplayChecksChain(limits, disk.(log := disk.log[..|disk.log| - 1])); }
  }

  /** Recovery to the same chain value means the same attempts, with the same requests and outcomes. */
  lemma RecoveredChainBinds(limits: Limits, x: Disk, y: Disk)
    requires x.snapshot.None? && forall i :: 0 <= i < |x.log| ==> !x.log[i].SnapshotRecord?
    requires y.snapshot.None? && forall i :: 0 <= i < |y.log| ==> !y.log[i].SnapshotRecord?
    requires Recover(limits, x).Good? && Recover(limits, y).Good?
    requires Recover(limits, x).value.chain == Recover(limits, y).value.chain
    ensures Links(x.log) == Links(y.log)
  {
    hide Replay;
    ReplayChecksChain(limits, x);
    ReplayChecksChain(limits, y);
    ChainBinds(ZERO, x.log, y.log);
  }
}
