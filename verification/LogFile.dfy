/** The record log as bytes (src/file_journal.cpp): layout, the scan that replay performs, and what it finds in a file
    that was cut or damaged anywhere. */
module LogFile {
  import opened Types
  import opened ByteCodec
  import opened Crc32c
  import opened Frames

  const JOURNAL_MAGIC: nat := 0x314A_4643
  const FILE_HEADER_BYTES: nat := 12
  const RECORD_OVERHEAD: nat := 8
  const ENVELOPE_BYTES: nat := 25

  /** Attempt, Snapshot, Intent. */
  type RecordKind = k: u8 | 1 <= k <= 3 witness 1

  datatype LogEntry = LogEntry(sequence: u64, kind: RecordKind, chain: Digest128, payload: Bytes)

  /** A journal's bounds, and the checksum it puts on records. The checksum stays a parameter of the layout; what the
      code uses is CRC-32C, and only the damage theorem below needs to know. */
  datatype LogOptions = LogOptions(maxRecord: nat, maxBytes: nat, truncateTorn: bool, check: Bytes -> u32)

  // ---------------------------------------------------------------- layout

  function HeaderPrefix(magic: nat): (h: Bytes)
    ensures |h| == 8
  {
    Le(magic, 4) + [FORMAT_VERSION, 0, 0, 0]
  }

  function FileHeader(o: LogOptions, magic: nat): (h: Bytes)
    ensures |h| == FILE_HEADER_BYTES
  {
    HeaderPrefix(magic) + Le(o.check(HeaderPrefix(magic)), 4)
  }

  function Envelope(e: LogEntry): (b: Bytes)
    ensures |b| == ENVELOPE_BYTES + |e.payload|
  {
    Le(e.sequence, 8) + [e.kind] + Le(e.chain.lo, 8) + Le(e.chain.hi, 8) + e.payload
  }

  function RecordBytes(o: LogOptions, e: LogEntry): (b: Bytes)
    ensures |b| == RECORD_OVERHEAD + ENVELOPE_BYTES + |e.payload|
  {
    Le(|Envelope(e)|, 4) + Le(o.check(Envelope(e)), 4) + Envelope(e)
  }

  function Flat(o: LogOptions, entries: seq<LogEntry>): Bytes {
    if entries == [] then [] else RecordBytes(o, entries[0]) + Flat(o, entries[1..])
  }

  /** The file a journal holding these records is. */
  function FileBytes(o: LogOptions, entries: seq<LogEntry>): (b: Bytes)
    ensures FILE_HEADER_BYTES <= |b|
  {
    FileHeader(o, JOURNAL_MAGIC) + Flat(o, entries)
  }

  /** What `append` accepts. */
  predicate Appendable(o: LogOptions, e: LogEntry) {
    ENVELOPE_BYTES + |e.payload| <= o.maxRecord && ENVELOPE_BYTES + |e.payload| < 0x1_0000_0000
  }

  ghost predicate AllAppendable(o: LogOptions, entries: seq<LogEntry>) {
    forall i :: 0 <= i < |entries| ==> Appendable(o, entries[i])
  }

  // ---------------------------------------------------------------- the scan

  function EntryOf(env: Bytes): LogEntry
    requires |env| >= ENVELOPE_BYTES && 1 <= env[8] <= 3
  {
    WordBound(env[0..8]);
    WordBound(env[9..17]);
    WordBound(env[17..25]);
    LogEntry(Un(env[0..8]), env[8], Digest128(Un(env[9..17]), Un(env[17..25])), env[25..])
  }

  lemma WordBound(b: Bytes)
    requires |b| == 8
    ensures Un(b) < 0x1_0000_0000_0000_0000
  {
    Widths();
    LeUn(b);
  }

  /** The record at `at`, or none when what is there is not a whole, intact record. */
  function RecordAt(o: LogOptions, file: Bytes, at: nat): Option<LogEntry> {
    if at + RECORD_OVERHEAD > |file| then None else
    var length := Un(Slice(file, at, 4));
    if length > o.maxRecord || length < ENVELOPE_BYTES || at + RECORD_OVERHEAD + length > |file| then None else
    var env := Slice(file, at + RECORD_OVERHEAD, length);
    if o.check(env) != Un(Slice(file, at + 4, 4)) then None
    else if !(1 <= env[8] <= 3) then None
    else Some(EntryOf(env))
  }

  function After(at: nat, e: LogEntry): nat { at + RECORD_OVERHEAD + ENVELOPE_BYTES + |e.payload| }

  lemma RecordAtEnds(o: LogOptions, file: Bytes, at: nat)
    requires RecordAt(o, file, at).Some?
    ensures After(at, RecordAt(o, file, at).value) <= |file|
  {}

  /** The records replay yields from `at`, and the offset it stops at. */
  function Scanned(o: LogOptions, file: Bytes, at: nat): (r: (seq<LogEntry>, nat))
    requires at <= |file|
    ensures at <= r.1 <= |file|
    decreases |file| - at
  {
    var record := RecordAt(o, file, at);
    if record.None? then ([], at) else
    RecordAtEnds(o, file, at);
    var (entries, end) := Scanned(o, file, After(at, record.value));
    ([record.value] + entries, end)
  }

  // ---------------------------------------------------------------- one record

  lemma EnvelopeFields(e: LogEntry)
    ensures var env := Envelope(e);
            env[0..8] == Le(e.sequence, 8) && env[8] == e.kind && env[9..17] == Le(e.chain.lo, 8)
            && env[17..25] == Le(e.chain.hi, 8) && env[25..] == e.payload
  {}

  lemma EntryRoundTrip(e: LogEntry)
    ensures EntryOf(Envelope(e)) == e
  {
    EnvelopeFields(e);
    Widths();
    UnLe(e.sequence, 8);
    UnLe(e.chain.lo, 8);
    UnLe(e.chain.hi, 8);
  }

  /** The bytes of `what` lie in the file at `at`. */
  predicate Lies(file: Bytes, at: nat, what: Bytes) {
    at + |what| <= |file| && Slice(file, at, |what|) == what
  }

  lemma LiesPart(file: Bytes, at: nat, what: Bytes, from: nat, to: nat)
    requires Lies(file, at, what) && from <= to <= |what|
    ensures Lies(file, at + from, what[from..to])
  {
    var part := Slice(file, at + from, to - from);
    forall j | 0 <= j < to - from ensures part[j] == what[from..to][j] {
      assert part[j] == file[at + (from + j)] == Slice(file, at, |what|)[from + j];
    }
  }

  /** Both parts of what lies in a file lie one after the other. */
  lemma LiesSplit(file: Bytes, at: nat, x: Bytes, y: Bytes)
    requires Lies(file, at, x + y)
    ensures Lies(file, at, x) && Lies(file, at + |x|, y)
  {
    LiesPart(file, at, x + y, 0, |x|);
    LiesPart(file, at, x + y, |x|, |x + y|);
    Middle([], x, y);
  }

  lemma LiesAtStart(file: Bytes, what: Bytes)
    requires what <= file
    ensures Lies(file, 0, what)
  {}

  lemma LiesWithin(file: Bytes, at: nat, what: Bytes)
    requires Lies(file, at, what)
    ensures at + |what| <= |file|
  {}

  lemma RecordParts(o: LogOptions, e: LogEntry)
    ensures var r := RecordBytes(o, e);
            r[0..4] == Le(|Envelope(e)|, 4) && r[4..8] == Le(o.check(Envelope(e)), 4) && r[8..|r|] == Envelope(e)
  {}

  /** A whole record is read back. */
  lemma RecordReads(o: LogOptions, file: Bytes, at: nat, e: LogEntry)
    requires Appendable(o, e) && Lies(file, at, RecordBytes(o, e))
    ensures RecordAt(o, file, at) == Some(e)
  {
    hide RecordBytes;
    var r := RecordBytes(o, e);
    RecordParts(o, e);
    LiesPart(file, at, r, 0, 4);
    LiesPart(file, at, r, 4, 8);
    LiesPart(file, at, r, 8, |r|);
    EntryRoundTrip(e);
    EnvelopeFields(e);
    Widths();
    UnLe(|Envelope(e)|, 4);
    UnLe(o.check(Envelope(e)), 4);
  }

  /** A record the file ends in the middle of is not read. */
  lemma CutRecordUnread(o: LogOptions, file: Bytes, at: nat, e: LogEntry)
    requires Appendable(o, e) && at <= |file| < at + |RecordBytes(o, e)|
    requires Lies(file, at, RecordBytes(o, e)[..|file| - at])
    ensures RecordAt(o, file, at).None?
  {
    var part := RecordBytes(o, e)[..|file| - at];
    if |part| >= RECORD_OVERHEAD {
      LiesPart(file, at, part, 0, 4);
      RecordParts(o, e);
      assert part[0..4] == RecordBytes(o, e)[0..4];
      Widths();
      UnLe(|Envelope(e)|, 4);
    }
  }

  // ---------------------------------------------------------------- a cut anywhere

  /** How many records lie wholly within the first `cut` bytes. */
  function Whole(o: LogOptions, entries: seq<LogEntry>, cut: nat): (k: nat)
    ensures k <= |entries|
  {
    if entries == [] || |RecordBytes(o, entries[0])| > cut then 0
    else 1 + Whole(o, entries[1..], cut - |RecordBytes(o, entries[0])|)
  }

  /** `Whole` counts exactly the records that end at or before the cut. */
  lemma {:induction false} WholeIsMaximal(o: LogOptions, entries: seq<LogEntry>, cut: nat)
    ensures |Flat(o, entries[..Whole(o, entries, cut)])| <= cut
    ensures Whole(o, entries, cut) < |entries| ==> cut < |Flat(o, entries[..Whole(o, entries, cut) + 1])|
  {
    hide RecordBytes;
    if entries == [] || |RecordBytes(o, entries[0])| > cut {
      assert entries[..0] == [];
      if entries != [] {
        assert entries[..1][1..] == [];
        assert Flat(o, entries[..1]) == RecordBytes(o, entries[0]) + Flat(o, []);
      }
    } else {
      var k := Whole(o, entries[1..], cut - |RecordBytes(o, entries[0])|);
      WholeIsMaximal(o, entries[1..], cut - |RecordBytes(o, entries[0])|);
      assert entries[..k + 1][1..] == entries[1..][..k];
      if k + 1 < |entries| { assert entries[..k + 2][1..] == entries[1..][..k + 1]; }
    }
  }

  lemma ScanStep(o: LogOptions, file: Bytes, at: nat, e: LogEntry, entries: seq<LogEntry>, end: nat)
    requires at <= |file| && RecordAt(o, file, at) == Some(e) && After(at, e) <= |file|
    requires Scanned(o, file, After(at, e)) == (entries, end)
    ensures Scanned(o, file, at) == ([e] + entries, end)
  {}

  /** Replay reads through whole records up to the first thing that is not one. */
  lemma {:induction false} ScanThrough(o: LogOptions, file: Bytes, at: nat, entries: seq<LogEntry>)
    requires AllAppendable(o, entries) && Lies(file, at, Flat(o, entries))
    requires RecordAt(o, file, at + |Flat(o, entries)|).None?
    ensures Scanned(o, file, at) == (entries, at + |Flat(o, entries)|)
    decreases |entries|
  {
    if entries == [] { return; }
    hide RecordAt, Scanned, Lies, Slice, RecordBytes, Appendable;
    var e := entries[0];
    LiesSplit(file, at, RecordBytes(o, e), Flat(o, entries[1..]));
    LiesWithin(file, at, RecordBytes(o, e));
    RecordReads(o, file, at, e);
    ScanThrough(o, file, After(at, e), entries[1..]);
    ScanStep(o, file, at, e, entries[1..], at + |Flat(o, entries)|);
    assert [e] + entries[1..] == entries;
  }

  lemma {:induction false} FlatConcat(o: LogOptions, x: seq<LogEntry>, y: seq<LogEntry>)
    ensures Flat(o, x + y) == Flat(o, x) + Flat(o, y)
  {
    if x == [] {
      assert x + y == y;
    } else {
      var r := RecordBytes(o, x[0]);
      FlatConcat(o, x[1..], y);
      assert (x + y)[1..] == x[1..] + y && (x + y)[0] == x[0];
      assert Flat(o, x + y) == r + Flat(o, x[1..] + y);
      assert r + (Flat(o, x[1..]) + Flat(o, y)) == (r + Flat(o, x[1..])) + Flat(o, y);
    }
  }

  lemma FlatSplit(o: LogOptions, entries: seq<LogEntry>, k: nat)
    requires k <= |entries|
    ensures Flat(o, entries) == Flat(o, entries[..k]) + Flat(o, entries[k..])
  {
    assert entries == entries[..k] + entries[k..];
    FlatConcat(o, entries[..k], entries[k..]);
  }

  /** What follows the whole records of a cut log is the beginning of the next one, if anything. */
  lemma CutRemainder(o: LogOptions, entries: seq<LogEntry>, cut: nat, k: nat)
    requires cut <= |Flat(o, entries)| && k == Whole(o, entries, cut)
    ensures var n := |Flat(o, entries[..k])|;
            && n <= cut && (k == |entries| ==> cut == n)
            && (k < |entries| ==> cut - n < |RecordBytes(o, entries[k])|)
            && (k < |entries| ==> Flat(o, entries)[n..cut] == RecordBytes(o, entries[k])[..cut - n])
  {
    hide Whole, RecordBytes;
    var n := |Flat(o, entries[..k])|;
    WholeIsMaximal(o, entries, cut);
    FlatSplit(o, entries, k);
    if k < |entries| {
      assert entries[..k + 1] == entries[..k] + [entries[k]];
      FlatPush(o, entries[..k], entries[k]);
      var rest := Flat(o, entries[k..]);
      assert entries[k..][0] == entries[k];
      assert rest[..cut - n] == RecordBytes(o, entries[k])[..cut - n];
      assert Flat(o, entries)[n..cut] == rest[..cut - n];
    } else {
      assert entries[..k] == entries;
    }
  }

  /** Nothing is read where the cut log stops being whole. */
  lemma CutStops(o: LogOptions, file: Bytes, at: nat, entries: seq<LogEntry>, cut: nat, k: nat, n: nat)
    requires AllAppendable(o, entries) && cut <= |Flat(o, entries)| && |file| == at + cut
    requires Lies(file, at, Flat(o, entries)[..cut])
    requires k == Whole(o, entries, cut) && n == |Flat(o, entries[..k])|
    ensures n <= cut && RecordAt(o, file, at + n).None?
  {
    CutRemainder(o, entries, cut, k);
    if k < |entries| {
      LiesPart(file, at, Flat(o, entries)[..cut], n, cut);
      assert Flat(o, entries)[..cut][n..cut] == Flat(o, entries)[n..cut];
      CutRecordUnread(o, file, at + n, entries[k]);
    }
  }

  /** Replay of a log cut anywhere yields exactly the records wholly before the cut, and stops at their boundary. */
  lemma CutScan(o: LogOptions, file: Bytes, at: nat, entries: seq<LogEntry>, cut: nat, k: nat)
    requires AllAppendable(o, entries) && cut <= |Flat(o, entries)| && |file| == at + cut
    requires Lies(file, at, Flat(o, entries)[..cut])
    requires k == Whole(o, entries, cut)
    ensures Scanned(o, file, at) == (entries[..k], at + |Flat(o, entries[..k])|)
  {
    hide RecordAt, Scanned, Lies, Flat, Whole, Appendable;
    var n := |Flat(o, entries[..k])|;
    CutStops(o, file, at, entries, cut, k, n);
    CutLies(o, file, at, entries, cut, k, n);
    assert AllAppendable(o, entries[..k]);
    ScanThrough(o, file, at, entries[..k]);
  }

  lemma CutLies(o: LogOptions, file: Bytes, at: nat, entries: seq<LogEntry>, cut: nat, k: nat, n: nat)
    requires cut <= |Flat(o, entries)| && Lies(file, at, Flat(o, entries)[..cut]) && k <= |entries|
    requires n == |Flat(o, entries[..k])| <= cut
    ensures Lies(file, at, Flat(o, entries[..k]))
  {
    FlatPrefix(o, entries, k);
    LiesPart(file, at, Flat(o, entries)[..cut], 0, n);
    assert Flat(o, entries)[..cut][0..n] == Flat(o, entries)[..n];
  }

  lemma {:induction false} FlatPrefix(o: LogOptions, entries: seq<LogEntry>, k: nat)
    requires k <= |entries|
    ensures |Flat(o, entries[..k])| <= |Flat(o, entries)|
    ensures Flat(o, entries)[..|Flat(o, entries[..k])|] == Flat(o, entries[..k])
  {
    if k == 0 {
      assert entries[..0] == [];
    } else {
      FlatPrefix(o, entries[1..], k - 1);
      assert entries[..k][1..] == entries[1..][..k - 1];
    }
  }

  /** The torn-tail theorem. Cut the file of any records anywhere at or after its header: replay yields exactly the
      records wholly before the cut, finds the tail torn exactly when the cut is off a record boundary, and the file
      truncated at the offset it stopped at is the file of those records. */
  lemma TornTail(o: LogOptions, entries: seq<LogEntry>, cut: nat)
    requires AllAppendable(o, entries) && FILE_HEADER_BYTES <= cut <= |FileBytes(o, entries)|
    ensures var k := Whole(o, entries, cut - FILE_HEADER_BYTES);
            var file := FileBytes(o, entries)[..cut];
            var (found, end) := Scanned(o, file, FILE_HEADER_BYTES);
            && found == entries[..k]
            && (end == |file| <==> cut == |FileBytes(o, entries[..k])|)
            && file[..end] == FileBytes(o, entries[..k])
  {
    hide Whole, Scanned, FileHeader, Flat;
    var n := cut - FILE_HEADER_BYTES;
    var k := Whole(o, entries, n);
    var file := FileBytes(o, entries)[..cut];
    assert file == FileHeader(o, JOURNAL_MAGIC) + Flat(o, entries)[..n];
    assert Slice(file, FILE_HEADER_BYTES, n) == Flat(o, entries)[..n];
    CutScan(o, file, FILE_HEADER_BYTES, entries, n, k);
    FlatPrefix(o, entries, k);
    WholeIsMaximal(o, entries, n);
    assert Flat(o, entries)[..n][..|Flat(o, entries[..k])|] == Flat(o, entries)[..|Flat(o, entries[..k])|];
  }

  /** An intact file replays every record, untorn. */
  lemma IntactScan(o: LogOptions, entries: seq<LogEntry>)
    requires AllAppendable(o, entries)
    ensures Scanned(o, FileBytes(o, entries), FILE_HEADER_BYTES) == (entries, |FileBytes(o, entries)|)
  {
    assert Slice(FileBytes(o, entries), FILE_HEADER_BYTES, |Flat(o, entries)|) == Flat(o, entries);
    ScanThrough(o, FileBytes(o, entries), FILE_HEADER_BYTES, entries);
  }

  lemma {:induction false} FlatPush(o: LogOptions, entries: seq<LogEntry>, e: LogEntry)
    ensures Flat(o, entries + [e]) == Flat(o, entries) + RecordBytes(o, e)
  {
    if entries == [] {
      assert entries + [e] == [e];
      assert Flat(o, [e]) == RecordBytes(o, e) + Flat(o, [e][1..]);
    } else {
      FlatPush(o, entries[1..], e);
      assert (entries + [e])[1..] == entries[1..] + [e];
    }
  }

  // ---------------------------------------------------------------- a damaged byte

  /** The checksum is CRC-32C, as the code's is. */
  ghost predicate ChecksCrc(o: LogOptions) { forall b :: o.check(b) == Crc(b) }

  /** A record whose envelope or checksum has one byte changed is not read. */
  lemma DamagedRecordUnread(o: LogOptions, file: Bytes, at: nat, e: LogEntry, damaged: Bytes, i: nat)
    requires ChecksCrc(o) && Appendable(o, e) && DifferOnlyAt(RecordBytes(o, e), damaged, i) && 4 <= i
    requires Lies(file, at, damaged)
    ensures RecordAt(o, file, at).None?
  {
    var r, n := RecordBytes(o, e), |Envelope(e)|;
    LiesPart(file, at, damaged, 0, 4);
    LiesPart(file, at, damaged, 4, 8);
    LiesPart(file, at, damaged, 8, |damaged|);
    RecordParts(o, e);
    assert damaged[0..4] == r[0..4];
    Widths();
    UnLe(n, 4);
    ChecksumFails(o, e, damaged[4..8], damaged[8..|damaged|], i, damaged);
  }

  lemma ChecksumFails(o: LogOptions, e: LogEntry, stored: Bytes, env: Bytes, i: nat, damaged: Bytes)
    requires ChecksCrc(o) && DifferOnlyAt(RecordBytes(o, e), damaged, i) && 4 <= i && stored == damaged[4..8]
    requires env == damaged[8..|damaged|]
    ensures o.check(env) != Un(stored)
  {
    var r := RecordBytes(o, e);
    RecordParts(o, e);
    Widths();
    UnLe(o.check(Envelope(e)), 4);
    LeUn(stored);
    if i < 8 {
      assert env == r[8..|r|];
      assert stored[i - 4] != r[4..8][i - 4];
    } else {
      assert stored == r[4..8];
      forall j | 0 <= j < |env| ensures (Envelope(e)[j] == env[j]) == (j != i - 8) {
        assert Envelope(e)[j] == r[j + 8] && env[j] == damaged[j + 8];
      }
      OneByteChangesCrc(Envelope(e), env, i - 8);
    }
  }

  /** One changed byte in a record, outside its length, ends replay there: the records before it are replayed, it and
      everything after it are treated as a torn tail, and nothing is misread. */
  lemma DamageEndsReplay(o: LogOptions, before: seq<LogEntry>, e: LogEntry, after: seq<LogEntry>, damaged: Bytes,
      i: nat)
    requires ChecksCrc(o) && AllAppendable(o, before) && Appendable(o, e) && DifferOnlyAt(RecordBytes(o, e), damaged, i)
    requires 4 <= i
    ensures var file := FileBytes(o, before) + damaged + Flat(o, after);
            var (found, end) := Scanned(o, file, FILE_HEADER_BYTES);
            found == before && end == |FileBytes(o, before)| && end != |file|
  {
    DamageAt(o, FileBytes(o, before) + damaged + Flat(o, after), before, e, damaged, i);
  }

  lemma DamageAt(o: LogOptions, file: Bytes, before: seq<LogEntry>, e: LogEntry, damaged: Bytes, i: nat)
    requires ChecksCrc(o) && AllAppendable(o, before) && Appendable(o, e) && DifferOnlyAt(RecordBytes(o, e), damaged, i)
    requires 4 <= i
    requires FileBytes(o, before) + damaged <= file
    ensures Scanned(o, file, FILE_HEADER_BYTES) == (before, |FileBytes(o, before)|)
  {
    hide RecordAt, Scanned, Lies, ChecksCrc, DifferOnlyAt, RecordBytes;
    LiesAtStart(file, FileBytes(o, before) + damaged);
    LiesSplit(file, 0, FileBytes(o, before), damaged);
    LiesSplit(file, 0, FileHeader(o, JOURNAL_MAGIC), Flat(o, before));
    DamagedRecordUnread(o, file, |FileBytes(o, before)|, e, damaged, i);
    ScanThrough(o, file, FILE_HEADER_BYTES, before);
  }
}
