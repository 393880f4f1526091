/** From records to bytes and back: the journal file of any in-bounds records, cut anywhere, decodes to the records
    wholly before the cut (src/engine.cpp:537-592 over src/file_journal.cpp and src/record.cpp); and the snapshot file.
    */
module DurableLog {
  import opened Types
  import opened ByteCodec
  import opened Formats
  import opened Frames
  import opened Records
  import opened Messages
  import opened Payloads
  import opened LogFile

  /** A journal record with its digests as the 128-bit words that are stored. */
  datatype Stored =
    | StoredIntent(sequence: u64, chain: Digest128, request: WireRequest)
    | StoredAttempt(sequence: u64, chain: Digest128, attempt: WireAttempt)
    | StoredSnapshot(sequence: u64, chain: Digest128, state: WireState)

  function EntryFor(s: Stored): LogEntry {
    match s
    case StoredAttempt(sequence, chain, t) => LogEntry(sequence, 1, chain, EncodeAttempt(t))
    case StoredSnapshot(sequence, chain, d) => LogEntry(sequence, 2, chain, EncodeState(d))
    case StoredIntent(sequence, chain, r) => LogEntry(sequence, 3, chain, EncodeRequest(r))
  }

  /** What recovery makes of one log entry. `blank` is the account value a fresh attempt holds. */
  function Read(maxNote: nat, blank: WireAccount, e: LogEntry): Option<Stored> {
    if e.kind == 1 then
      (match DecodeAttempt(e.payload,
                           blank) case None => None case Some(t) => Some(StoredAttempt(e.sequence, e.chain, t)))
    else if e.kind == 2 then
      (match DecodeState(e.payload) case None => None case Some(d) => Some(StoredSnapshot(e.sequence, e.chain, d)))
    else
      (match DecodeRequest(maxNote,
                           e.payload) case None => None case Some(r) => Some(StoredIntent(e.sequence, e.chain, r)))
  }

  /** Within the bounds of the codecs, the receiver and the log. */
  ghost predicate Storable(o: LogOptions, maxNote: nat, blank: WireAccount, s: Stored) {
    && Appendable(o, EntryFor(s))
    && match s
       case StoredAttempt(_, _, t) => AttemptFits(t) && (!t.hasAccount ==> t.account == blank)
       case StoredSnapshot(_, _, d) => StateFits(d)
       case StoredIntent(_, _, r) => |r.note| <= ENCODED_NOTE && |r.note| <= maxNote
  }

  lemma ReadsBack(o: LogOptions, maxNote: nat, blank: WireAccount, s: Stored)
    requires Storable(o, maxNote, blank, s)
    ensures Read(maxNote, blank, EntryFor(s)) == Some(s)
  {
    hide EncodeAttempt, EncodeState, AttemptFits, StateFits, DecodeAttempt, DecodeState, DecodeRequest, EncodeRequest;
    match s
    case StoredAttempt(_, _, t) => AttemptDecodes(EncodeAttempt(t), blank, t);
    case StoredSnapshot(_, _, d) => StateDecodes(EncodeState(d), d);
    case StoredIntent(_, _, r) => RequestRoundTripIff(maxNote, r);
  }

  function Entries(records: seq<Stored>): seq<LogEntry> {
    seq(|records|, i requires 0 <= i < |records| => EntryFor(records[i]))
  }

  /** Replay of the entries found, decoded one by one. */
  function ReadAll(maxNote: nat, blank: WireAccount, entries: seq<LogEntry>): Option<seq<Stored>> {
    if entries == [] then Some([]) else
    match ReadAll(maxNote, blank, entries[..|entries| - 1])
    case None => None
    case Some(records) =>
      match Read(maxNote, blank, entries[|entries| - 1])
      case None => None
      case Some(s) => Some(records + [s])
  }

  lemma {:induction false} AllReadBack(o: LogOptions, maxNote: nat, blank: WireAccount, records: seq<Stored>)
    requires forall i :: 0 <= i < |records| ==> Storable(o, maxNote, blank, records[i])
    ensures ReadAll(maxNote, blank, Entries(records)) == Some(records)
  {
    if records != [] {
      var init, last := records[..|records| - 1], records[|records| - 1];
      AllReadBack(o, maxNote, blank, init);
      assert Entries(records)[..|records| - 1] == Entries(init);
      ReadsBack(o, maxNote, blank, last);
      assert init + [last] == records;
    }
  }

  /** Write any storable records, cut the file anywhere at or after its header, replay and decode it: out come exactly
      the records that were wholly written. */
  lemma CutFileDecodes(o: LogOptions, maxNote: nat, blank: WireAccount, records: seq<Stored>, cut: nat)
    requires forall i :: 0 <= i < |records| ==> Storable(o, maxNote, blank, records[i])
    requires FILE_HEADER_BYTES <= cut <= |FileBytes(o, Entries(records))|
    ensures var k := Whole(o, Entries(records), cut - FILE_HEADER_BYTES);
            ReadAll(maxNote, blank,
                    Scanned(o, FileBytes(o, Entries(records))[..cut], FILE_HEADER_BYTES).0) == Some(records[..k])
  {
    hide FileBytes, Whole, ReadAll, Scanned, EntryFor, AttemptFits, StateFits;
    var entries := Entries(records);
    var k := Whole(o, entries, cut - FILE_HEADER_BYTES);
    forall i | 0 <= i < |entries| ensures Appendable(o, entries[i]) { assert Storable(o, maxNote, blank, records[i]); }
    TornTail(o, entries, cut);
    assert entries[..k] == Entries(records[..k]);
    AllReadBack(o, maxNote, blank, records[..k]);
  }

  // ---------------------------------------------------------------- the snapshot file

  const SNAPSHOT_MAGIC: nat := 0x3153_4643
  const SNAPSHOT_LIMIT: nat := 0x400_0000

  /** Header with sequence and half the chain, payload, then the other half, length and checksum. */
  function SnapshotBytes(o: LogOptions, sequence: u64, chain: Digest128, payload: Bytes): Bytes {
    FileHeader(o, SNAPSHOT_MAGIC) + Le(sequence, 8) + Le(chain.lo, 8) + payload
      + (Le(chain.hi, 8) + Le(|payload|, 4) + Le(o.check(payload), 4))
  }

  datatype SnapshotImage = SnapshotImage(sequence: nat, lo: nat, hi: nat, payload: Bytes)

  /** `read_snapshot`: the trailer is found from the end of the file, the payload from its beginning. */
  function ReadSnapshot(o: LogOptions, b: Bytes): Option<SnapshotImage> {
    if |b| < 28 || Un(b[..4]) != SNAPSHOT_MAGIC || b[4] != FORMAT_VERSION || Un(b[8..12]) != o.check(b[..8]) then None else
    var trailer := b[|b| - 16..];
    var length := Un(trailer[8..12]);
    if length > SNAPSHOT_LIMIT || 28 + length > |b| then None else
    var payload := b[28..28 + length];
    if o.check(payload) != Un(trailer[12..16]) then None
    else Some(SnapshotImage(Un(b[12..20]), Un(b[20..28]), Un(trailer[..8]), payload))
  }

  lemma SnapshotFields(o: LogOptions, sequence: u64, chain: Digest128, payload: Bytes, b: Bytes)
    requires b == SnapshotBytes(o, sequence, chain, payload)
    ensures |b| == 44 + |payload| && b[..12] == FileHeader(o, SNAPSHOT_MAGIC)
    ensures b[12..20] == Le(sequence, 8) && b[20..28] == Le(chain.lo, 8) && b[28..28 + |payload|] == payload
    ensures b[|b| - 16..] == Le(chain.hi, 8) + Le(|payload|, 4) + Le(o.check(payload), 4)
  {
    var head := FileHeader(o, SNAPSHOT_MAGIC) + Le(sequence, 8) + Le(chain.lo, 8);
    Middle(head, payload, Le(chain.hi, 8) + Le(|payload|, 4) + Le(o.check(payload), 4));
    Middle(FileHeader(o, SNAPSHOT_MAGIC), Le(sequence, 8), Le(chain.lo, 8));
    assert b[..12] == head[..12] && b[12..20] == head[12..20] && b[20..28] == head[20..];
  }

  /** A written snapshot reads back, when it is within the payload bound. */
  lemma SnapshotReadsBack(o: LogOptions, sequence: u64, chain: Digest128, payload: Bytes)
    requires |payload| <= SNAPSHOT_LIMIT
    ensures ReadSnapshot(o, SnapshotBytes(o, sequence, chain, payload)) ==
              Some(SnapshotImage(sequence, chain.lo, chain.hi, payload))
  {
    var b := SnapshotBytes(o, sequence, chain, payload);
    var trailer := b[|b| - 16..];
    SnapshotFields(o, sequence, chain, payload, b);
    SnapshotHeader(o, b);
    Widths();
    UnLe(sequence, 8);
    UnLe(chain.lo, 8);
    UnLe(chain.hi, 8);
    UnLe(|payload|, 4);
    UnLe(o.check(payload), 4);
    assert trailer[..8] == Le(chain.hi, 8) && trailer[8..12] == Le(|payload|, 4) && trailer[12..16] ==
             Le(o.check(payload), 4);
  }

  lemma SnapshotHeader(o: LogOptions, b: Bytes)
    requires |b| >= 12 && b[..12] == FileHeader(o, SNAPSHOT_MAGIC)
    ensures Un(b[..4]) == SNAPSHOT_MAGIC && b[4] == FORMAT_VERSION && Un(b[8..12]) == o.check(b[..8])
  {
    var h := FileHeader(o, SNAPSHOT_MAGIC);
    Widths();
    assert b[..8] == h[..8] == HeaderPrefix(SNAPSHOT_MAGIC);
    assert b[..4] == HeaderPrefix(SNAPSHOT_MAGIC)[..4] == Le(SNAPSHOT_MAGIC, 4);
    assert b[4] == HeaderPrefix(SNAPSHOT_MAGIC)[4];
    assert b[8..12] == h[8..12] == Le(o.check(HeaderPrefix(SNAPSHOT_MAGIC)), 4);
    UnLe(SNAPSHOT_MAGIC, 4);
    UnLe(o.check(HeaderPrefix(SNAPSHOT_MAGIC)), 4);
  }
}
