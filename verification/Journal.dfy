/** The abstract log the engine writes (include/creditfabric/journal.hpp, src/journal.cpp): a list of records, a
    replay cursor and the newest snapshot. Byte budgets and device errors are the environment's: every durable write
    takes the fate it meets, and a write that fails may or may not have reached the log. */
module Journals {
  import opened Types
  import opened Digests
  import opened Engine
  import opened Snapshots

  predicate Durable(f: Fate) { f.Written? || f.present }

  function StatusOf(f: Fate): Status {
    match f
    case Written => SUCCESS
    case Failed(reason, detail, _) => Status(reason, detail)
  }

  /** An append while the log is being replayed is refused, whatever the device would do. */
  function Meets(replaying: bool, f: Fate): Fate { if replaying then Failed(INVALID_STATE, 1, false) else f }

  function IoMet(replaying: bool, io: Io): Io { Io(Meets(replaying, io.intent), Meets(replaying, io.commit)) }

  class InMemoryJournal {
    var entries: seq<JournalRecord>
    var cursor: nat
    var replaying: bool
    var snapshot: Option<SnapshotFile>

    function Contents(): Disk
      reads this
    {
      Disk(entries, snapshot)
    }

    constructor ()
      ensures Contents() == Disk([], None) && !replaying
    {
      entries, cursor, replaying, snapshot := [], 0, false, None;
    }

    method Append(record: JournalRecord, fate: Fate) returns (status: Status)
      modifies this
      ensures replaying == old(replaying) && cursor == old(cursor)
      ensures var met := Meets(replaying, fate);
              && status == StatusOf(met)
              && Contents() == if Durable(met) then Appended(old(Contents()), [record]) else old(Contents())
    {
      if replaying { return Status(INVALID_STATE, 1); }
      if Durable(fate) { entries := entries + [record]; }
      status := StatusOf(fate);
    }

    method BeginReplay()
      modifies this
      ensures Contents() == old(Contents()) && cursor == 0 && replaying
    {
      cursor, replaying := 0, true;
    }

    /** The next record, or none at the end of the log. */
    method NextRecord() returns (record: Option<JournalRecord>)
      modifies this
      ensures Contents() == old(Contents()) && replaying == old(replaying)
      ensures record.Some? <==> old(cursor) < |entries|
      ensures record.Some? ==> record.value == entries[old(cursor)] && cursor == old(cursor) + 1
      ensures record.None? ==> cursor == old(cursor)
    {
      if cursor >= |entries| { return None; }
      record := Some(entries[cursor]);
      cursor := cursor + 1;
    }

    method EndReplay()
      modifies this
      ensures Contents() == old(Contents()) && !replaying
    {
      replaying := false;
    }

    /** Keep exactly the records beyond the snapshot, in order. */
    method Rotate(sequence: nat, fate: Fate) returns (status: Status)
      modifies this
      ensures status == StatusOf(fate) && replaying == old(replaying) && snapshot == old(snapshot)
      ensures entries == if Durable(fate) then Rotated(old(entries), sequence) else old(entries)
    {
      status := StatusOf(fate);
      if !Durable(fate) { return; }
      var kept := [];
      var i := 0;
      while i < |entries|
        invariant i <= |entries| && entries == old(entries)
        invariant kept + Rotated(entries[i..], sequence) == Rotated(entries, sequence)
      {
        if entries[i].sequence > sequence { kept := kept + [entries[i]]; }
        i := i + 1;
      }
      entries := kept;
      cursor := 0;
    }

    method WriteSnapshot(file: SnapshotFile, fate: Fate) returns (status: Status)
      modifies this
      ensures status == StatusOf(fate) && replaying == old(replaying) && entries == old(entries)
      ensures snapshot == if Durable(fate) then Some(file) else old(snapshot)
    {
      if Durable(fate) { snapshot := Some(file); }
      status := StatusOf(fate);
    }
  }
}
