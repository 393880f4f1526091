/** The journal file object (src/file_journal.cpp), over a file held as bytes. The operating system's file calls and
    their failures are outside it, except that an append may be cut short anywhere. */
module FileJournals {
  import opened Types
  import opened ByteCodec
  import opened Frames
  import opened LogFile

  /** The header `open` accepts (src/file_journal.cpp:98-115). */
  function HeaderRefusal(o: LogOptions, file: Bytes): Option<Status> {
    if |file| < FILE_HEADER_BYTES then Some(Status(JOURNAL_CORRUPT, 12))
    else if Un(file[..4]) != JOURNAL_MAGIC then Some(Status(JOURNAL_CORRUPT, 13))
    else if file[4] != FORMAT_VERSION then Some(Status(JOURNAL_VERSION_UNSUPPORTED, file[4]))
    else if Un(file[8..12]) != o.check(file[..8]) then Some(Status(JOURNAL_CORRUPT, 14))
    else None
  }

  lemma HeaderAccepted(o: LogOptions, file: Bytes)
    requires FileHeader(o, JOURNAL_MAGIC) <= file
    ensures HeaderRefusal(o, file).None?
  {
    var h := FileHeader(o, JOURNAL_MAGIC);
    Widths();
    assert file[..8] == h[..8] == HeaderPrefix(JOURNAL_MAGIC);
    assert file[..4] == HeaderPrefix(JOURNAL_MAGIC)[..4] == Le(JOURNAL_MAGIC, 4);
    assert file[8..12] == h[8..12] == Le(o.check(HeaderPrefix(JOURNAL_MAGIC)), 4);
    UnLe(JOURNAL_MAGIC, 4);
    UnLe(o.check(HeaderPrefix(JOURNAL_MAGIC)), 4);
  }

  /** `data` written over the file at `at`. */
  function Overwritten(file: Bytes, at: nat, data: Bytes): Bytes
    requires at <= |file|
  {
    file[..at] + data + (if at + |data| < |file| then file[at + |data|..] else [])
  }

  /** `get_u32` and `get_u64`. */
  method Get(data: Bytes, at: nat, width: nat) returns (n: nat)
    requires at + width <= |data|
    ensures n == Un(Slice(data, at, width))
  {
    n := 0;
    var i: nat := width;
    while i > 0
      invariant i <= width && n == Un(data[at + i..at + width])
    {
      i := i - 1;
      assert data[at + i..at + width][1..] == data[at + (i + 1)..at + width];
      n := data[at + i] + 256 * n;
    }
  }

  /** The record at `at`, field by field; none as soon as a test fails. */
  method ReadRecord(options: LogOptions, data: Bytes, at: nat) returns (record: Option<LogEntry>)
    requires at + RECORD_OVERHEAD <= |data|
    ensures record == RecordAt(options, data, at)
  {
    hide Un;
    var length := Get(data, at, 4);
    var expected := Get(data, at + 4, 4);
    if length > options.maxRecord || length < ENVELOPE_BYTES || at + RECORD_OVERHEAD + length > |data| { return None; }
    var envelope := data[at + RECORD_OVERHEAD..at + RECORD_OVERHEAD + length];
    if options.check(envelope) != expected { return None; }
    if !(1 <= envelope[8] <= 3) { return None; }
    var sequence := Get(envelope, 0, 8);
    var lo := Get(envelope, 9, 8);
    var hi := Get(envelope, 17, 8);
    WordBound(envelope[0..8]);
    WordBound(envelope[9..17]);
    WordBound(envelope[17..25]);
    record := Some(LogEntry(sequence, envelope[8], Digest128(lo, hi), envelope[ENVELOPE_BYTES..]));
  }

  class FileJournal {
    const options: LogOptions
    var file: Option<Bytes>
    var open: bool
    var replaying: bool
    var torn: bool
    var writeOffset: nat
    var scanOffset: nat
    var truncatedBytes: nat

    ghost predicate Valid()
      reads this
    {
      open ==> file.Some? && FILE_HEADER_BYTES <= scanOffset <= writeOffset <= |file.value|
    }

    /** What the journal takes to be written. */
    function Written(): Bytes
      requires Valid() && open
      reads this
    {
      file.value[..writeOffset]
    }

    constructor (options: LogOptions, file: Option<Bytes>)
      ensures Valid() && !open && this.file == file && this.options == options
    {
      this.options, this.file := options, file;
      open, replaying, torn, writeOffset, scanOffset, truncatedBytes := false, false, false, 0, 0, 0;
    }

    method Open() returns (status: Status)
      modifies this
      ensures file == if old(file).None? then Some(FileBytes(options, [])) else old(file)
      ensures var refusal := HeaderRefusal(options, file.value);
              if refusal.Some? && old(file).Some? then status == refusal.value && open == old(open)
              else
                && status == SUCCESS && Valid() && open && !replaying && !torn
                && writeOffset == |file.value| && scanOffset == FILE_HEADER_BYTES
    {
      if file.None? {
        file := Some(FileHeader(options, JOURNAL_MAGIC));
        assert FileHeader(options, JOURNAL_MAGIC) + [] == FileHeader(options, JOURNAL_MAGIC);
      } else {
        var refusal := HeaderRefusal(options, file.value);
        if refusal.Some? { return refusal.value; }
      }
      open, replaying, torn, truncatedBytes := true, false, false, 0;
      writeOffset, scanOffset := |file.value|, FILE_HEADER_BYTES;
      status := SUCCESS;
    }

    method BeginReplay() returns (status: Status)
      requires Valid()
      modifies this
      ensures Valid() && open == old(open) && file == old(file) && writeOffset == old(writeOffset)
      ensures status.Ok() <==> old(open) && !old(replaying)
      ensures status.Ok() ==> replaying && !torn && scanOffset == FILE_HEADER_BYTES
      ensures !status.Ok() ==> replaying == old(replaying) && torn == old(torn) && scanOffset == old(scanOffset)
    {
      if !open { return Status(INVALID_STATE, 30); }
      if replaying { return Status(INVALID_STATE, 31); }
      scanOffset, torn, replaying := FILE_HEADER_BYTES, false, true;
      status := SUCCESS;
    }

    /** The record at the scan offset; or none, and torn unless the scan reached the end. */
    method NextRecord() returns (status: Status, record: Option<LogEntry>)
      requires Valid()
      modifies this
      ensures Valid() && open == old(open) && replaying == old(replaying) && file == old(file)
      ensures writeOffset == old(writeOffset)
      ensures status.Ok() <==> old(open)
      ensures old(open) ==>
                && record == RecordAt(options, Written(), old(scanOffset))
                && (record.Some? ==> scanOffset == After(old(scanOffset), record.value) && torn == old(torn))
                && (record.None? ==> scanOffset == old(scanOffset) && torn == (old(torn) || scanOffset != writeOffset))
    {
      record := None;
      if !open { return Status(INVALID_STATE, 32), None; }
      status := SUCCESS;
      var data := file.value[..writeOffset];
      if scanOffset + RECORD_OVERHEAD > writeOffset {
        if scanOffset != writeOffset { torn, truncatedBytes := true, writeOffset - scanOffset; }
        return;
      }
      record := ReadRecord(options, data, scanOffset);
      if record.None? {
        torn, truncatedBytes := true, writeOffset - scanOffset;
        return;
      }
      RecordAtEnds(options, data, scanOffset);
      scanOffset := scanOffset + RECORD_OVERHEAD + ENVELOPE_BYTES + |record.value.payload|;
    }

    /** Cut a torn tail off the file. The torn flag itself stays set until the next open, begin_replay or rotate. */
    method EndReplay() returns (status: Status)
      requires Valid()
      modifies this
      ensures Valid() && open == old(open) && torn == old(torn) && scanOffset == old(scanOffset)
      ensures !(old(open) && old(replaying)) ==> !status.Ok() && file == old(file)
      ensures old(open) && old(replaying) ==>
                && !replaying
                && (status.Ok() <==> !torn || options.truncateTorn)
                && (torn && options.truncateTorn ==>
                       file == Some(old(file).value[..scanOffset]) && writeOffset == scanOffset)
                && (!(torn && options.truncateTorn) ==> file == old(file) && writeOffset == old(writeOffset))
    {
      if !open { return Status(INVALID_STATE, 40); }
      if !replaying { return Status(INVALID_STATE, 42); }
      replaying := false;
      if torn {
        if !options.truncateTorn { return Status(JOURNAL_TORN, truncatedBytes); }
        file := Some(file.value[..scanOffset]);
        writeOffset := scanOffset;
      }
      status := SUCCESS;
    }

    /** Append one record. `cut` is where the write stopped, if it was cut short: the bytes before it may be on disk,
        but the journal does not count them. */
    method Append(e: LogEntry, cut: Option<nat>) returns (status: Status)
      requires Valid()
      modifies this
      ensures Valid() && open == old(open) && replaying == old(replaying) && torn == old(torn)
      ensures scanOffset == old(scanOffset)
      ensures var admitted := old(open) && !old(replaying) && !old(torn) && Admits(old(writeOffset), e);
              && (!admitted ==> !status.Ok() && file == old(file) && writeOffset == old(writeOffset))
              && (admitted && cut.None? ==>
                    && status == SUCCESS
                    && file == Some(Overwritten(old(file).value, old(writeOffset), RecordBytes(options, e)))
                    && writeOffset == old(writeOffset) + |RecordBytes(options, e)|
                    && Written() == old(Written()) + RecordBytes(options, e))
              && (admitted && cut.Some? ==>
                    !status.Ok() && writeOffset == old(writeOffset) && Written() == old(Written())
                    && exists n :: 0 <= n <= |RecordBytes(options, e)| && file ==
                         Some(Overwritten(old(file).value, writeOffset, RecordBytes(options, e)[..n])))
    {
      if !open { return Status(INVALID_STATE, 50); }
      if replaying { return Status(INVALID_STATE, 51); }
      if torn { return Status(JOURNAL_TORN, truncatedBytes); }
      if !Appendable(options, e) { return Status(OVERSIZED_FRAME, |e.payload|); }
      if writeOffset + |RecordBytes(options, e)| > options.maxBytes { return Status(BUDGET_EXCEEDED, writeOffset); }
      var data := RecordBytes(options, e);
      if cut.Some? {
        var n := if cut.value < |data| then cut.value else |data|;
        file := Some(Overwritten(file.value, writeOffset, data[..n]));
        return Status(IO_ERROR, 55);
      }
      file := Some(Overwritten(file.value, writeOffset, data));
      writeOffset := writeOffset + |data|;
      status := SUCCESS;
    }

    predicate Admits(offset: nat, e: LogEntry) {
      Appendable(options, e) && offset + |RecordBytes(options, e)| <= options.maxBytes
    }

    /** Drop every record, whatever the snapshot's sequence. */
    method Rotate() returns (status: Status)
      requires Valid()
      modifies this
      ensures Valid() && open == old(open) && replaying == old(replaying)
      ensures status.Ok() <==> old(open)
      ensures status.Ok() ==>
                file == Some(FileBytes(options, [])) && writeOffset == scanOffset == FILE_HEADER_BYTES && !torn
      ensures !status.Ok() ==> file == old(file)
    {
      if !open { return Status(INVALID_STATE, 60); }
      assert FileHeader(options, JOURNAL_MAGIC) + [] == FileHeader(options, JOURNAL_MAGIC);
      file := Some(FileHeader(options, JOURNAL_MAGIC));
      writeOffset, scanOffset, torn, truncatedBytes := FILE_HEADER_BYTES, FILE_HEADER_BYTES, false, 0;
      status := SUCCESS;
    }

    /** The replay loop of recovery: every record up to the end or the tear. */
    method ReplayAll() returns (entries: seq<LogEntry>)
      requires Valid() && open && replaying && !torn && scanOffset == FILE_HEADER_BYTES
      modifies this
      ensures Valid() && open && replaying && file == old(file) && writeOffset == old(writeOffset)
      ensures (entries, scanOffset) == Scanned(options, Written(), FILE_HEADER_BYTES)
      ensures torn == (scanOffset != writeOffset)
    {
      hide LogFile.RecordAt;
      entries := [];
      ghost var data, all := Written(), Scanned(options, Written(), FILE_HEADER_BYTES);
      var status, record := NextRecord();
      assert record.Some? ==> entries + [record.value] == [record.value];
      while record.Some?
        invariant Valid() && open && replaying && file == old(file) && writeOffset == old(writeOffset)
        invariant record.Some? ==> !torn && all == Resumed(entries + [record.value], Scanned(options, data, scanOffset))
        invariant record.None? ==> all == (entries, scanOffset) && torn == (scanOffset != writeOffset)
        decreases writeOffset - scanOffset, if record.Some? then 1 else 0
      {
        entries := entries + [record.value];
        ghost var at := scanOffset;
        status, record := NextRecord();
        if record.Some? {
          assert entries + ([record.value] + Scanned(options, data,
              scanOffset).0) == entries + [record.value] + Scanned(options, data, scanOffset).0;
        } else {
          assert Scanned(options, data, at) == ([], at) && entries + [] == entries;
        }
      }
    }
  }

  function Resumed(found: seq<LogEntry>, rest: (seq<LogEntry>, nat)): (seq<LogEntry>, nat) { (found + rest.0, rest.1) }

  /** Open, replay and end replay: the file keeps exactly what was replayed, and a tear stays flagged. */
  method Replayed(options: LogOptions, file: Bytes) returns (journal: FileJournal, entries: seq<LogEntry>)
    requires options.truncateTorn && HeaderRefusal(options, file).None?
    ensures fresh(journal) && journal.Valid() && journal.open && !journal.replaying && journal.options == options
    ensures var (found, end) := Scanned(options, file, FILE_HEADER_BYTES);
            && entries == found && journal.file == Some(file[..end]) && journal.writeOffset == end
            && journal.torn == (end != |file|)
  {
    journal := new FileJournal(options, Some(file));
    var status := journal.Open();
    status := journal.BeginReplay();
    assert journal.Written() == file;
    entries := journal.ReplayAll();
    status := journal.EndReplay();
    assert file[..|file|] == file;
  }

  /** Append to a journal whose file ends where it writes. */
  method Continued(journal: FileJournal, e: LogEntry) returns (status: Status)
    requires journal.Valid() && journal.open && !journal.replaying && journal.writeOffset == |journal.file.value|
    requires journal.Admits(journal.writeOffset, e)
    modifies journal
    ensures status.Ok() <==> !old(journal.torn)
    ensures journal.Valid() && journal.torn == old(journal.torn)
    ensures var was, added := old(journal.file).value, RecordBytes(journal.options, e);
            journal.file == Some(if old(journal.torn) then was else was + added)
  {
    ghost var was := journal.file.value;
    assert was[..|was|] == was;
    status := journal.Append(e, None);
    ghost var grown := was + RecordBytes(journal.options, e);
    assert grown + [] == grown;
    if !journal.torn { assert journal.file == Some(grown + []); }
  }

  /** A journal file cut anywhere at or after its header: replay yields the records wholly before the cut; when the cut
      was off a boundary, appends are refused until the file is reopened; then the log continues from that boundary. */
  method CrashReplayAppend(options: LogOptions, ghost written: seq<LogEntry>, file: Bytes,
      next: LogEntry) returns (entries: seq<LogEntry>, after: Bytes)
    requires AllAppendable(options, written) && options.truncateTorn
    requires FILE_HEADER_BYTES <= |file| && file <= FileBytes(options, written)
    requires Appendable(options, next)
    requires |FileBytes(options, written)| + |RecordBytes(options, next)| <= options.maxBytes
    ensures entries == written[..Whole(options, written, |file| - FILE_HEADER_BYTES)]
    ensures after == FileBytes(options, entries + [next])
  {
    CutFile(options, written, file, next);
    var journal;
    journal, entries := Replayed(options, file);
    var torn := journal.torn;
    var status := Continued(journal, next);
    if torn {
      var reopened := new FileJournal(options, journal.file);
      status := reopened.Open();
      status := Continued(reopened, next);
      after := reopened.file.value;
    } else {
      after := journal.file.value;
    }
  }

  /** What the torn-tail theorem says of a cut file, its replay and the append that follows. */
  lemma CutFile(options: LogOptions, written: seq<LogEntry>, file: Bytes, next: LogEntry)
    requires AllAppendable(options, written) && FILE_HEADER_BYTES <= |file| && file <= FileBytes(options, written)
    ensures HeaderRefusal(options, file).None?
    ensures var (entries, end) := Scanned(options, file, FILE_HEADER_BYTES);
            && entries == written[..Whole(options, written, |file| - FILE_HEADER_BYTES)]
            && end <= |FileBytes(options, written)| && HeaderRefusal(options, file[..end]).None?
            && file[..end] + RecordBytes(options, next) == FileBytes(options, entries + [next])
  {
    hide RecordAt, Scanned, Flat, Whole, RecordBytes, HeaderRefusal, FileBytes;
    assert file == FileBytes(options, written)[..|file|];
    TornTail(options, written, |file|);
    HeaderKept(options, written, file);
    var (entries, end) := Scanned(options, file, FILE_HEADER_BYTES);
    HeaderKept(options, entries, file[..end]);
    FileGrows(options, entries, next);
  }

  lemma HeaderKept(options: LogOptions, entries: seq<LogEntry>, file: Bytes)
    requires file <= FileBytes(options, entries) && FILE_HEADER_BYTES <= |file|
    ensures HeaderRefusal(options, file).None?
  {
    assert FileBytes(options, entries)[..FILE_HEADER_BYTES] == FileHeader(options, JOURNAL_MAGIC);
    assert file[..FILE_HEADER_BYTES] == FileBytes(options, entries)[..FILE_HEADER_BYTES];
    HeaderAccepted(options, file);
  }

  lemma FileGrows(options: LogOptions, entries: seq<LogEntry>, next: LogEntry)
    ensures FileBytes(options, entries) + RecordBytes(options, next) == FileBytes(options, entries + [next])
  {
    FlatPush(options, entries, next);
  }
}
