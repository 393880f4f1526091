# Credit Fabric authority core in Dafny

Credit Fabric is a credit ledger behind a write-ahead journal: clients issue, consume, return and protect credit on
accounts; an engine decides every attempt exactly once, journals it, and re-derives its state from the journal after a
crash. This project models that core and proves what the documentation promises of it, and exactly where the code does
less.

| part | modules |
|---|---|
| 64-bit ledger | `Ledger` (plan as a function, bucket model), `LedgerPlans` (the plan object) |
| engine decisions | `Digests`, `Windows`, `Engine`, `Decisions`, `EngineInvariant`, `Backups` |
| recovery | `Recovery`, `LiveReplay`, `Snapshots`, `Faithful` |
| whole runs | `Sessions` (one boot), `System`, `Histories`, `Evidence`, `WindowRuns`, `Repeats`, `Storage`, `Chains`, `Losses` (runs that lose something) |
| the engine object | `Journals`, `CreditEngines` |
| bytes | `Crc32c`, `ByteCodec`, `Formats`, `Records`, `Messages`, `Payloads`, `Frames`, `LogFile`, `FileJournals`, `DurableLog`, `CrashFiles` |
| client | `Serving`, `Clients` |

`dafny verify dfyconfig.toml` checks everything.

## How it is put together

The engine's decisions are functions from a request and an account to a decision, and from a decision and the fates of
its two journal writes to a new state, disk and outcome. Recovery is modelled separately, as the separate code it is,
and the two are proved to agree. The class `CreditEngine` is the code's own form, with fields updated in place, a
constant-space backup restored on failure, and loops over maps and lists; each of its methods is proved to compute those
functions, so everything proved about them holds of it. The same pattern relates the classes `LedgerPlan`,
`AttemptWindow`, `InMemoryJournal`, `ByteWriter`, `ByteReader`, `FileJournal` and `CoordinatorClient` to their
specifications.

Proofs say with `hide` which definitions they do not need; that keeps every obligation well below the resource limit.

A system state has two history variables: `truth`, the live account at each account's last durable commit, and
`history`, every durable commit and boot. The safety theorems speak of these, over any interleaving of calls, failed
writes that did or did not reach the disk, explicit snapshots with any of their three writes failing, crashes and boots.

Digests are injective constructors over exactly the fields the code hashes; in particular `spent` is not one of them.
A digest sent by a peer may also be an arbitrary literal. The incarnation-id hash is a parameter of a boot. Attempt
counters are naturals.

The run theorems assume `max_fences_per_account >= max_incarnations_per_account`, as in the defaults; without it a Fence
refused at the fence limit leaves an unjournaled incarnation record (src/engine.cpp:1293-1306).

Recovery reads records through their decoders: an intent or attempt whose note the encoder dropped, or a snapshot with a
collection over the decoder's ceiling, is refused as corrupt. `CrashFiles` proves that this is exactly when a record's
bytes do not decode to the record, and carries the session theorems down to a journal file cut at any byte.

## Where the code and its prose differ

- The documentation says a journal failure rolls back the mutation exactly. `Backups.RollbackExactIff` gives the exact
  condition; `Losses.InexactRollback` is a run where it fails.
- The documentation says durable work replays. `Sessions.RecoversIffLossless` gives the exact condition within a boot. It fails after a refused Issue that newly binds a field, whose binding replay does not recreate
  (`Losses.UnrecoverableSession`), and after a decided request with a note over 4096 bytes, which the engine may be
  configured to admit and the encoder drops (`Losses.UnreadableSession`, `Messages.RequestRoundTripIff`).
- The automatic snapshot is taken before the decided attempt is published, so a restart from it forgets the attempt's slot,
  which is next again: `Losses.AutomaticSnapshotForgets`. The run theorems, exactly-once among them, do not cover it.
- A duplicate returns the recorded status with the current view and era, not the recorded outcome verbatim, and only
  while its era is current; a repeated Open is not absorbed at all, but refused as AccountExists
  (`Repeats.RepeatsAreAbsorbed`).
- `DurableState::state_digest` is documented as verified on restore; the code never reads it
  (`Snapshots.AggregateDigestUnread`).
- A Retired incarnation is documented as re-openable by reconciliation; the code never decides anything for it again
  (`Histories.ExclusionsArePermanent`).
- The `BudgetExceeded` branch for an exhausted watermark cannot be reached behind the stale-replay test
  (`Engine.NeverExhausted`).
- A client that moves to an account whose watermark is below what it has already counted is not placed at watermark + 1,
  and draws a gap (`Clients.CoordinatorClient.Place`, `Serving.AheadIsGap`).
- A recovery that fails on an engine already recovered does not withdraw it: its recovered flag stays set
  (`CreditEngines.CreditEngine.Recover`).
- The torn flag of the journal file survives `end_replay`; appending resumes only after a reopen.
- A window restored from a snapshot forgets attempt ids: `WindowRuns.RestoredAgreesIff`.
- `consumed` can exceed `issued` (`Ledger.ConsumedCanExceedIssued`), exactly when `Ledger.ConsumedWithinIssuedIff` says.

## Model

| member | source | states |
|---|---|---|
| `Ledger.AddOverflow` | include/creditfabric/checked.hpp:17-20 | the wrapped sum and the `out < a` test report overflow exactly when the true sum does not fit 64 bits |
| `Ledger.SubOverflow` | include/creditfabric/checked.hpp:22-29 | reports underflow exactly when the true difference is negative |
| `Ledger.SaturatingAdd` | include/creditfabric/checked.hpp:102-105 | the sum, or the largest 64-bit value when the sum exceeds it |
| `Ledger.CheckInvariants` | src/ledger.cpp:52-62 | accepts exactly the counters that describe a five-way partition of capacity with no negative part |
| `Ledger.ComputeView` | src/ledger.cpp:12-50 | a closed view is that partition; anything else is marked not closed and shows nothing spendable |
| `Ledger.StageRefinesBuckets` | src/ledger.cpp:106-331 | every mutator of a plan is one move between the buckets available, protected, outstanding, spent and stale: accepted exactly on its guard, wrapping nowhere, sum kept at capacity, refusal changing nothing, and the final re-check never the one to refuse |
| `Ledger.MoveSpendsOnlyIssued` | src/ledger.cpp:127-195 | outstanding plus consumed grows by at most what a move issues, and quarantine leaves nothing outstanding |
| `Ledger.NoDoubleSpend` | src/ledger.cpp:127-308 | over any accepted history of moves, consumed plus still spendable never exceeds issued plus what was spendable at the start |
| `Ledger.EraSpendsItsOwnIssues` | src/ledger.cpp:254-308 | whatever is accepted after a quarantine consumes no more than was issued after it |
| `Ledger.HistoryCounts` | src/ledger.cpp:127-308 | over any accepted history the `issued` counter grows by the accepted Issues, and the `consumed` counter by the accepted Consumes plus the ToConsumed revalidations |
| `Ledger.ConsumedWithinIssuedIff` | src/ledger.cpp:150-308 | an account ends with `consumed <= issued` if and only if its Consumes and ToConsumed revalidations together stay within its Issues; always when nothing was revalidated to consumed |
| `Ledger.MoveKeepsBackedIff` | src/ledger.cpp:150-308 | per call: every accepted move keeps consumed + outstanding <= issued, except RevalidatedConsumed(n), which keeps it if and only if consumed + outstanding + n <= issued |
| `Ledger.ConsumedCanExceedIssued` | src/ledger.cpp:254-308 | at every capacity a concrete accepted history ends with `consumed > issued`: quarantine then ToConsumed counts a spent credit again |
| `LedgerPlans.LedgerPlan.Commit` | src/ledger.cpp:116-125 | publishes a candidate that passes the re-check, latches the verdict otherwise |
| `LedgerPlans.LedgerPlan.Issue` | src/ledger.cpp:127-148 | the Issued move, as the staged plan of `Ledger.Run`, which refines the bucket move |
| `LedgerPlans.LedgerPlan.Consume` | src/ledger.cpp:150-171 | the Consumed move, as the staged plan of `Ledger.Run`, which refines the bucket move |
| `LedgerPlans.LedgerPlan.GiveBack` | src/ledger.cpp:173-195 | the GivenBack move, spent credit first, as the staged plan of `Ledger.Run`, which refines the bucket move |
| `LedgerPlans.LedgerPlan.Protect` | src/ledger.cpp:197-218 | the Protected move, as the staged plan of `Ledger.Run`, which refines the bucket move |
| `LedgerPlans.LedgerPlan.Unprotect` | src/ledger.cpp:220-233 | the Unprotected move, as the staged plan of `Ledger.Run`, which refines the bucket move |
| `LedgerPlans.LedgerPlan.RetireStale` | src/ledger.cpp:235-252 | the RetiredStale move, as the staged plan of `Ledger.Run`, which refines the bucket move |
| `LedgerPlans.LedgerPlan.QuarantineInFlight` | src/ledger.cpp:254-266 | the Quarantined move, as the staged plan of `Ledger.Run`, which refines the bucket move |
| `LedgerPlans.LedgerPlan.RevalidateToReturned` | src/ledger.cpp:268-285 | the RevalidatedReturned move, as the staged plan of `Ledger.Run`, which refines the bucket move |
| `LedgerPlans.LedgerPlan.RevalidateToConsumed` | src/ledger.cpp:287-308 | the RevalidatedConsumed move, as the staged plan of `Ledger.Run`, which refines the bucket move |
| `LedgerPlans.LedgerPlan.SetCapacity` | src/ledger.cpp:310-331 | the Resized move, as the staged plan of `Ledger.Run`, which refines the bucket move |
| `Windows.InsertKeepsAgreement` | src/engine.cpp:235-250 | a fresh key under a fresh attempt id keeps deque, key map and attempt map in agreement, and leaves the newest `limit` keys with their entries |
| `Windows.InsertOrder` | src/engine.cpp:235-250 | insertion keeps the last `limit` keys, whatever the maps hold |
| `Windows.AttemptWindow.Add` | src/engine.cpp:235-250 | the in-place insert with its eviction loop is `Insert` |
| `Windows.AttemptWindow.FindByAttempt` | src/engine.cpp:229-233 | finds an entry exactly when the attempt id maps to a key the window holds |
| `Windows.AttemptWindow.Identities` | src/engine.cpp:260-265 | the identity pairs in insertion order |
| `WindowRuns.WindowIsNewestDecisions` | src/engine.cpp:198-274 | in every one-boot run, with any write failures and snapshots, a live window is exactly the newest decided slots, its containers agree, nothing in it is above a watermark |
| `WindowRuns.RestoredAgreesIff` | src/engine.cpp:493-498 | a window restored from a snapshot agrees with itself if and only if it holds at most one slot, because attempt ids are not stored |
| `EngineInvariant.ApplyKeepsEngine` | src/engine.cpp:847-1428 | every call keeps: ledger closed, 0 < capacity <= maximum, epoch >= generation >= 1, Reconciled only in the current era, fenced exactly when a unique fence names it, lastSequence = committed + refused, and the sums over incarnations equal the account counters; whatever becomes of its writes |
| `EngineInvariant.DecisionKeepsAccount` | src/engine.cpp:900-1355 | a decision keeps that invariant both as committed and as rolled back, and never leaves an unjournaled record |
| `EngineInvariant.FenceKeeps` | src/engine.cpp:1293-1321 | a Fence keeps it and cannot leak a record once fences fit incarnations |
| `Decisions.RepeatIsAbsorbed` | src/engine.cpp:940-954 | a repeat the window remembers, in the current era, gets the recorded status and changes nothing |
| `Decisions.SettledWatermarks` | src/engine.cpp:1479-1493 | a decision moves its own incarnation's watermark to its slot and no other |
| `Decisions.SettledBars` | src/engine.cpp:1287-1330 | no decision lifts a fence or a retirement, an applied Fence or RetireIncarnation bars its target, and no decision is for a barred incarnation |
| `Engine.NeverExhausted` | src/engine.cpp:961-969 | the test for an exhausted slot space never fires behind the stale-replay test, and the next slot is exactly the one after the watermark |
| `Decisions.SettledStanding` | src/engine.cpp:1091-1094 | whoever is live after a decision reconciled by it, or was live and was not withdrawn by it |
| `Decisions.SettledSpends` | src/engine.cpp:1074-1355 | a decision spends no more than was outstanding plus issued; an era starts with nothing outstanding |
| `Engine.Clamp` | src/engine.cpp:452-466 | no structural bound is zero, and bounds that already were not are kept |
| `LiveReplay.DecisionReplays` | src/engine.cpp:643-841 | replaying the recorded attempt rebuilds exactly the account the live decision left |
| `LiveReplay.StepReplays` | src/engine.cpp:573-592 | replaying both records of a decision mirrors the live step: accounts, chain and next sequence |
| `Sessions.SessionSynced` | src/engine.cpp:509-841 | over every one-boot session in which nothing was lost since the last checkpoint, the disk replays to the live engine, window contents included until a snapshot |
| `Sessions.EveryPrefixRecovers` | src/engine.cpp:509-613 | recovery from any record-boundary prefix of a lossless log succeeds with exactly the live accounts, chain and next sequence after the commits in it, and the one ambiguous note is the trailing uncommitted intent of an open account |
| `Sessions.CrashDuringCall` | src/engine.cpp:1383-1428 | a crash before, between or after the two records of a call, in any session: recovery succeeds exactly when nothing was lost before and what reached the disk can be read back, and then gives the state before the call, with its intent pending, or after it |
| `Sessions.CrashDuringSnapshot` | src/engine.cpp:1430-1473 | a crash after none, the log record, the installed file or the rotation of a snapshot: exactly when recovery succeeds, and then the same accounts, chain and next sequence |
| `Sessions.RecoversIffLossless` | src/engine.cpp:509-613 | the disk of any one-boot session recovers if and only if, since the last checkpoint, every decided request had a note of at most 4096 bytes and no refused Issue newly bound a producer, consumer or grant, and the checkpoint itself is within the decoder's ceilings |
| `Sessions.LossIsForeseen` | src/engine.cpp:1130-1158 | a call loses a binding exactly when it newly binds a field and asks for another binding or for credit outside the ledger's guard, which its caller can tell beforehand |
| `Losses.UnrecoverableSession` | src/engine.cpp:738-742 | in every configuration a concrete two-call session whose log recovery refuses: a refused Issue that newly binds its producer |
| `Losses.DroppedNoteUnrecoverable` | src/engine.cpp:551-554 | whatever is decided with a note over 4096 bytes, on a disk that replayed, makes recovery return JournalCorrupt 102 |
| `Losses.UnreadableSession` | src/engine.cpp:873-875 | in every configuration that admits such a note, a concrete one-call session whose log recovery refuses |
| `Losses.InexactRollback` | src/engine.cpp:1169-1178 | a concrete run with two live incarnations: an epoch advance whose commit fails leaves nothing durable, and the second incarnation no longer live |
| `Losses.AutomaticSnapshotForgets` | src/engine.cpp:1419-1428 | whenever a commit triggers the automatic snapshot, a restart after any of its three writes keeps the credit the attempt moved and puts the caller's watermark back below its slot, which is next again |
| `Losses.CommitRemembered` | src/engine.cpp:1479-1493 | without the automatic snapshot the same restart has the caller's watermark at its slot |
| `Snapshots.SnapshotRestores` | src/engine.cpp:473-507 | restoring a snapshot of an engine mirrors it, from the log or from the file |
| `Snapshots.CaptureRestores` | src/engine.cpp:1361-1381 | a captured account passes its own checks and gives itself back, up to window contents |
| `Snapshots.SnapshotCutReplays` | src/engine.cpp:528-571 | whichever of the three writes a crash follows, the disk replays to the live engine; once the file is installed, whatever the log before it held |
| `Snapshots.SnapshotCutUnreadable` | src/record.cpp:17-20 | a snapshot with a collection over the ceiling of 2^20 replays after none of its writes |
| `Snapshots.AggregateDigestUnread` | src/engine.cpp:473-507 | replacing the aggregate state digest of every snapshot on a disk by anything changes nothing that recovery returns |
| `Faithful.AttemptTells` | src/engine.cpp:745-766 | an attempt record replay accepts rebuilds the account that was recorded, in everything the digest and totals cover |
| `Faithful.SnapshotTells` | src/engine.cpp:473-507 | a snapshot that restores at all restores the recorded accounts |
| `System.RecoveryNeverGuesses` | src/engine.cpp:509-613 | over any number of boots, explicit snapshots, failed writes and crashes, whenever recovery succeeds its accounts agree with the live ones at their last durable commits, and are invariant |
| `System.NextKeeps` | src/engine.cpp:847-1473 | every action of the system keeps the relation between memory, disk and truth |
| `Histories.DecidedExactlyOnce` | src/engine.cpp:939-975 | over such runs the durable decisions of an incarnation take the slots 1, 2, 3, ... up to its watermark, each once and in order |
| `Repeats.NeverDecidedAgain` | src/engine.cpp:939-969 | a request for a slot that was ever durably decided changes neither memory nor disk, in any later boot, whatever it asks and whatever windows or snapshots forgot |
| `Repeats.RepeatsAreAbsorbed` | src/engine.cpp:939-954 | within a boot, the repeat of a decided request changes neither memory nor disk; it is answered as a duplicate, with the status it was decided with, if and only if it is not an Open, its era and standing are current and it is among the newest decisions the window holds |
| `Histories.ExclusionsArePermanent` | src/engine.cpp:921-932 | no attempt of an incarnation is decided after an applied Fence or RetireIncarnation of it, in any later boot either; no Reconcile re-opens it |
| `Histories.OperationsAreAuthorised` | src/engine.cpp:904-937 | every applied operation but Open and Reconcile follows, within its boot, its own incarnation's Open or Reconcile in the same era, with no era advance, retirement or fence of it in between |
| `Histories.NothingIsSpentTwice` | src/engine.cpp:1242-1266 | accepted Consumes plus what is spendable never exceed accepted Issues, over the whole history and over every segment from an era advance on |
| `Evidence.EqualEvidence` | src/engine.cpp:312-357 | two equal account digests at any two moments of a run mean no attempt on the account was decided between them and the totals, `spent` included, are the same |
| `Evidence.EvidenceBinds` | src/engine.cpp:1207-1211 | a control operation whose `expected_state` came from a Describe is decided only on the undisturbed account that Describe saw |
| `Chains.ChainBinds` | src/engine.cpp:144-181 | two logs from one chain value that pass the chain check and end in one chain value carry the same sequences, requests and digested outcomes |
| `Chains.RecoveredChainBinds` | src/engine.cpp:579-592 | two snapshot-free disks that recover to one chain value hold the same attempts |
| `Storage.OutcomeIsDurable` | src/engine.cpp:1383-1428 | a freshly decided outcome is returned only if its commit record is the last on disk |
| `Storage.FailureRollsBack` | src/engine.cpp:1169-1178 | a failed append reports no decision, restores ledger, capacity, era, latch, counters, fences, window and watermarks, latches the engine, and leaves the log ahead by at most this attempt's records |
| `Storage.AheadByOneAttempt` | src/engine.cpp:361-429 | however long a failed run went on, its log is ahead of its memory by at most one unacknowledged attempt |
| `Backups.DataUndone` | src/engine.cpp:377-429 | restoring the constant-space backup after a counted data operation gives back the account it started from |
| `Backups.ControlUndone` | src/engine.cpp:377-429 | after a counted control operation it gives back all but the demotions of a failed era advance |
| `Backups.RollbackExactIff` | src/engine.cpp:361-429 | the rollback of a decision is exact if and only if the request is not an era advance while somebody other than caller and target is live, nor an Issue that newly binds a field and asks for another binding or for credit outside the ledger's guard |
| `CreditEngines.LedgerApply` | src/engine.cpp:1053-1072 | stages the request on a plan object: `Engine.LedgerVerdict` |
| `CreditEngines.ResolveAmbiguous` | src/engine.cpp:635-641 | drops exactly the notes of the decided slot, in order |
| `CreditEngines.DemoteAll` | src/engine.cpp:1262-1264 | demotes every Reconciled record and no other |
| `CreditEngines.CreditEngine.constructor` | src/engine.cpp:452-466 | a fresh engine that has recovered nothing |
| `CreditEngines.CreditEngine.Persist` | src/engine.cpp:1383-1428 | intent then commit; what is on disk, the chain and the next sequence, for every fate of the two writes |
| `CreditEngines.CreditEngine.Publish` | src/engine.cpp:1479-1493 | window, watermark and pending notes of one decision |
| `CreditEngines.CreditEngine.RecordRefusal` | src/engine.cpp:1495-1512 | the bounded refusal ring |
| `CreditEngines.CreditEngine.Carry` | src/engine.cpp:1169-1181 | persist and publish, or restore the backup and latch |
| `CreditEngines.CreditEngine.FinishDecided` | src/engine.cpp:1184-1205 | a decided refusal, journaled or undone |
| `CreditEngines.CreditEngine.FinishApplied` | src/engine.cpp:1342-1355 | an applied operation, journaled or undone |
| `CreditEngines.CreditEngine.Bind` | src/engine.cpp:1130-1153 | writes producer, consumer and grant up to the first mismatch |
| `CreditEngines.CreditEngine.DecideData` | src/engine.cpp:1074-1182 | the data operations: `Engine.DataEffect` journaled |
| `CreditEngines.CreditEngine.DecideReconcile` | src/engine.cpp:1076-1115 | Reconcile against the boot's challenge |
| `CreditEngines.CreditEngine.DecideIssue` | src/engine.cpp:1120-1182 | Issue: bindings, then ledger |
| `CreditEngines.CreditEngine.StageAdvance` | src/engine.cpp:1242-1266 | quarantine, new era, demotion of everybody live |
| `CreditEngines.CreditEngine.StageControl` | src/engine.cpp:1207-1333 | state evidence first, then the operator's change in memory: `Engine.ControlEffect` |
| `CreditEngines.CreditEngine.DecideControl` | src/engine.cpp:1207-1355 | the control operations, with state evidence checked first |
| `CreditEngines.CreditEngine.CreateAccount` | src/engine.cpp:977-1051 | Open, erased again when it cannot be journaled |
| `CreditEngines.CreditEngine.DecideExisting` | src/engine.cpp:900-975 | a request against an existing account |
| `CreditEngines.CreditEngine.Apply` | src/engine.cpp:847-975 | one call: new state, disk and outcome are `Engine.Apply` of the old ones |
| `CreditEngines.CreditEngine.MarkAmbiguous` | src/engine.cpp:615-633 | notes an intent once per slot, evicting the oldest at the limit |
| `CreditEngines.CreditEngine.ReplayRecorded` | src/engine.cpp:643-771 | one attempt rebuilt, checked and published, or refused with the code's status |
| `CreditEngines.CreditEngine.ReplayLog` | src/engine.cpp:543-596 | the replay loop, skipping what the snapshot covers and stopping at the first record that fails |
| `CreditEngines.CreditEngine.RestoreFrom` | src/engine.cpp:528-541 | the whole state replaced by a snapshot's |
| `CreditEngines.CreditEngine.Recover` | src/engine.cpp:509-613 | on a new engine or again on a used one: succeeds exactly when `Recovery.Recover` does, with its accounts, chain, next sequence and snapshot count; a latched failure stays latched, and a failed recovery does not withdraw an earlier one |
| `CreditEngines.ReplaySame` | src/engine.cpp:543-592 | what replaying a record does to accounts and chain depends on neither the flags nor the counters of the engine it is replayed on |
| `CreditEngines.PlaceAttempt` | src/engine.cpp:939-969 | attempt identity in the window object, then slot placement: `Engine.Placement` |
| `CreditEngines.CreditEngine.Snapshot` | src/engine.cpp:1430-1473 | a sorted capture of every account, then log record, file and rotation, for every fate of the three |
| `CreditEngines.ReplayMove` | src/engine.cpp:773-841 | the replayed transition of one operation |
| `CreditEngines.RestoreAccounts` | src/engine.cpp:473-507 | accounts restored and checked one by one, up to the first that fails |
| `CreditEngines.CaptureAccounts` | src/engine.cpp:1437-1441 | every account once, whole, in ascending order of id |
| `Journals.InMemoryJournal.Append` | src/journal.cpp:15-28 | refused while replaying; otherwise the record is on disk or not as its fate says |
| `Journals.InMemoryJournal.NextRecord` | src/journal.cpp:37-55 | the record under the cursor, or none at the end |
| `Journals.InMemoryJournal.Rotate` | src/journal.cpp:62-75 | the filtering loop keeps exactly the records beyond the snapshot, in order |
| `Crc32c.MakeTable` | src/crc32c.cpp:20-30 | every entry is eight bit-steps of its index |
| `Crc32c.Compute` | src/crc32c.cpp:36-44 | the table-driven loop equals the bit-at-a-time reflected-polynomial definition for every input and seed |
| `Crc32c.TableStep` | src/crc32c.cpp:36-44 | eight bit-steps of the register are one lookup and one shift |
| `Crc32c.ChecksumConcat` | src/crc32c.cpp:36-44 | a checksum seeded with another continues it over the concatenation |
| `Crc32c.AbsorbInjective` | src/crc32c.cpp:36-44 | absorbing a byte is injective in the register and in the byte |
| `Crc32c.OneByteDetected` | src/crc32c.cpp:36-44 | strings differing in exactly one byte have different checksums, from any seed |
| `Frames.EncodeFrame` | src/wire.cpp:49-59 | the frame of a payload a 32-bit length can say |
| `Frames.DecodeFrameBytes` | src/wire.cpp:61-91 | the tests of the decoder, in order |
| `Frames.FrameRoundTrip` | src/wire.cpp:49-91 | a frame decodes to what was framed, whatever follows it |
| `Frames.FrameCanonical` | src/wire.cpp:61-91 | whatever is accepted is the frame of what was read from it, within the receiver's bound |
| `Frames.OneByteRefused` | src/wire.cpp:61-91 | a frame with any one byte changed outside its length field is refused |
| `ByteCodec.ByteWriter.Integer` | include/creditfabric/bytes.hpp:29-39 | appends the little-endian bytes |
| `ByteCodec.ByteWriter.Text` | include/creditfabric/bytes.hpp:52-57 | appends a length-prefixed string, or nothing when it is over its bound |
| `ByteCodec.ByteReader.Integer` | include/creditfabric/bytes.hpp:91-118 | reads exactly when enough bytes remain, and advances past them |
| `ByteCodec.ByteReader.Boolean` | include/creditfabric/bytes.hpp:80-89 | accepts only 0 and 1 |
| `ByteCodec.ByteReader.Text` | include/creditfabric/bytes.hpp:138-147 | reads a string within its bound and what remains |
| `ByteCodec.UnLe` | include/creditfabric/bytes.hpp:29-39 | reading the little-endian bytes of a number gives it back |
| `Formats.RoundTrip` | src/record.cpp:166-407 | decoding an encoding gives the value and leaves what follows, for every record shape |
| `Formats.Canonical` | src/record.cpp:202-407 | whatever is decoded is in bounds and encodes to the bytes consumed |
| `Formats.BudgetFits` | src/record.cpp:17-20 | a genuine collection never exceeds the budget the decoder demands of its claimed count |
| `Formats.PrefixesRefused` | src/record.cpp:202-407 | every strict prefix of an encoding is refused |
| `Formats.ExtensionsRefused` | src/record.cpp:202-407 | every extension of an encoding is refused |
| `Formats.Write` | src/record.cpp:166-321 | the writer appends the encoding, nested buffers included |
| `Formats.Read` | src/record.cpp:202-407 | the reader accepts exactly what the decoder does, and stands after it |
| `Records.Budgets` | src/record.cpp:237-273 | the encoded sizes of the collection items, each at least the budget per item |
| `Messages.RequestDecodes` | src/wire.cpp:361-375 | exactly the encodings of requests with a note in bounds decode, each to its request |
| `Messages.RequestRoundTripIff` | src/wire.cpp:192-213 | a request survives encoding and decoding if and only if its note is within the encoder's 4096 bytes and the receiver's bound; a longer note is dropped whole |
| `Messages.RequestCanonical` | src/wire.cpp:361-375 | an accepted request whose note is at most 4096 bytes re-encodes to the bytes it came from |
| `Messages.RequestPrefixesAndExtensions` | src/wire.cpp:368-375 | every strict prefix and extension of a request is refused |
| `Messages.OutcomeDecodes` | src/wire.cpp:270-308 | exactly the encodings of in-bounds outcomes decode, each to its outcome |
| `Messages.OutcomePrefixesAndExtensions` | src/wire.cpp:384-390 | every strict prefix and extension of an outcome is refused |
| `Payloads.AttemptDecodes` | src/record.cpp:166-283 | exactly the encodings of in-bounds durable attempts decode, each to its attempt, with and without an account |
| `Payloads.AttemptPrefixesAndExtensions` | src/record.cpp:202-283 | every strict prefix and extension of a durable attempt is refused |
| `Payloads.StateDecodes` | src/record.cpp:285-407 | exactly the encodings of in-bounds durable states decode, each to its state of nested accounts |
| `Payloads.StatePrefixesAndExtensions` | src/record.cpp:323-407 | every strict prefix and extension of a durable state is refused |
| `Payloads.AccountFitsFrame` | src/record.cpp:285-321 | an account within the collection bounds always fits its 32-bit frame length |
| `LogFile.TornTail` | src/file_journal.cpp:160-237 | the file of any records, cut anywhere at or after its header: replay yields exactly the records wholly before the cut, is torn exactly when the cut is off a boundary, and the file truncated where it stopped is the file of those records |
| `LogFile.WholeIsMaximal` | src/file_journal.cpp:160-221 | the records counted as whole are exactly those that end at or before the cut |
| `LogFile.IntactScan` | src/file_journal.cpp:160-221 | an intact file replays every record, untorn |
| `LogFile.DamageEndsReplay` | src/file_journal.cpp:196-202 | one changed byte in a record, outside its length, ends replay at that record and nothing is misread |
| `FileJournals.FileJournal.Open` | src/file_journal.cpp:78-132 | accepts exactly a valid header, creates a missing file, clears the tear |
| `FileJournals.FileJournal.BeginReplay` | src/file_journal.cpp:150-158 | rewinds to the first record of an open journal |
| `FileJournals.FileJournal.NextRecord` | src/file_journal.cpp:160-221 | the record at the scan offset, or none and torn unless at the end |
| `FileJournals.FileJournal.EndReplay` | src/file_journal.cpp:223-237 | truncates a torn tail; the torn flag stays |
| `FileJournals.FileJournal.Append` | src/file_journal.cpp:239-272 | refused while closed, replaying, torn or over budget; otherwise appended, or cut short without being counted |
| `FileJournals.FileJournal.Rotate` | src/file_journal.cpp:274-292 | drops every record |
| `FileJournals.FileJournal.ReplayAll` | src/file_journal.cpp:160-221 | the replay loop yields the scan of the file |
| `FileJournals.ReadRecord` | src/file_journal.cpp:173-217 | the field-by-field parse reads exactly the whole, intact record at an offset |
| `FileJournals.CrashReplayAppend` | src/file_journal.cpp:78-272 | a cut file replays the whole records before the cut; appending resumes after them, at a tear only once reopened |
| `DurableLog.CutFileDecodes` | src/engine.cpp:537-577 | stored records encoded, filed, cut anywhere, scanned and decoded give exactly the records wholly written |
| `CrashFiles.CutFileIsPrefix` | src/engine.cpp:543-577 | the journal file of any engine log, under a representation of digests as words injective on that log, cut at any byte: what replay reads from it is a prefix of the log |
| `CrashFiles.CutSessionRecovers` | src/engine.cpp:509-613 | the journal file of a lossless session without snapshots, cut at any byte, recovers the live state after some number of its calls, or that state with the next call's intent pending |
| `CrashFiles.IntentReadableIff` | src/engine.cpp:551-554 | an intent decodes from its own bytes to itself if and only if its note is within the encoder's and the engine's bounds, which is what the record-level model calls readable |
| `CrashFiles.AttemptReadableIff` | src/engine.cpp:575-577 | an attempt with counters in 64 bits decodes from its own bytes to itself if and only if the model calls it readable: note, collections and creation flags |
| `CrashFiles.SnapshotReadableIff` | src/engine.cpp:528-533 | a snapshot with counters in 64 bits decodes from its own bytes if and only if its collections are within the decoder's ceiling |
| `DurableLog.SnapshotReadsBack` | src/file_journal.cpp:294-397 | a written snapshot file reads back |
| `Serving.CallMoves` | src/engine.cpp:961-969 | every call moves only the watermark of a freshly decided and journaled attempt, to its slot |
| `Serving.ProperTells` | src/engine.cpp:888-969 | a request at watermark + 1 under a fresh id is never told it is a gap or stale; a Describe reports the watermark |
| `Serving.AheadIsGap` | src/engine.cpp:961-969 | a new request beyond the next slot, from a caller in good standing, is refused as a gap |
| `Clients.CoordinatorClient.constructor` | src/coordinator.cpp:200-202 | a new client is not connected, not placed, holds no authority and draws its first id |
| `Clients.CoordinatorClient.Connect` | src/coordinator.cpp:206-246 | a new session is not placed; sequence, authority and drawn ids are kept |
| `Clients.CoordinatorClient.Exchange` | src/coordinator.cpp:257-306 | one request and response, either possibly lost; the client's sequence follows decided outcomes only |
| `Clients.CoordinatorClient.Describe` | src/coordinator.cpp:308-318 | learns the watermark without moving it |
| `Clients.CoordinatorClient.Reconcile` | src/coordinator.cpp:320-347 | stays in step with the engine, and is placed when it succeeds |
| `Clients.CoordinatorClient.SubmitOpen` | src/coordinator.cpp:349-364 | an Open at slot 1 leaves the client in step |
| `Clients.CoordinatorClient.Place` | src/coordinator.cpp:378-386 | the description that places a client puts it at watermark + 1 if and only if it had not counted further, on this account or on another |
| `Clients.CoordinatorClient.Submit` | src/coordinator.cpp:349-402 | next sequence is at most watermark + 1, equal to it while connected and placed, and no request is refused as a gap or as stale, whatever is lost |
| `Clients.CoordinatorClient.OthersKeepStep` | src/coordinator.cpp:257-306 | calls of other incarnations leave the client in step and its watermark where it is |
| `Clients.Drive` | src/coordinator.cpp:206-402 | any list of connects, describes, reconciles, opens and submits on an account, with any losses, journal failures and calls of other incarnations in between: the client stays in step and is never told it is a gap or stale |
| `Clients.DriveFromStart` | src/coordinator.cpp:200-402 | the same from a new journal, a newly recovered engine and a new client |

## Left out

- The automatic snapshot inside `persist_locked` (src/engine.cpp:1423-1426) is no step of any run: every run theorem, in `Sessions`, `System`, `Histories`, `Repeats`, `Evidence` and `Storage`, is about explicit snapshots only. `Losses.AutomaticSnapshotForgets` says what one such snapshot does.
- `Losses.AutomaticSnapshotForgets`: does not model the threshold that triggers the snapshot, nor a second decision of the forgotten slot.
- `CreditEngines.CreditEngine.Persist`: does not model the automatic snapshot at the end of `persist_locked`.
- Reconfiguration: the runs over several boots keep the same limits and the same incarnation-id hash throughout.
- Completeness of recovery over several boots: the boot-time reset of Reconciled is not journaled, so a log spanning boots can be refused; `System.RecoveryNeverGuesses` says what holds whenever it is accepted.
- Collision resistance of the digests and the strength of the reconciliation proof: digests are injective constructors, the proof is equality of them.
- `CreditEngines.CreditEngine.Recover`: says nothing of the accounts after a failed recovery; the code leaves the account of the record that failed half rebuilt, the model does not.
- `CreditEngines.CreditEngine.StageControl`: takes the operator's operations other than era advances from the effect function rather than statement by statement.
- `CrashFiles.CutSessionRecovers`: stated for sessions without snapshots; what a snapshot file holds is `DurableLog.SnapshotReadsBack`.
- The entry points of the message and payload codecs: `Formats.Write` and `Formats.Read` are the running form of all of them.
- `Journals.InMemoryJournal.NextRecord`: does not model the corrupted entries a test can inject, which set the torn flag.
- An attempt whose note was dropped is refused as corrupt; that its remaining bytes cannot by chance decode as another attempt is not proved. Its intent always precedes it, and that one is proved not to decode.
- Account states are values in the engine's map, reassigned whole; aliasing of account references inside one call is not captured.
- `Formats.Read`: the reason and detail of a decoder's refusal are not modelled, only that it refuses; fields are read in the order of a table of columns rather than by one statement each.
- `Frames.DecodeFrameBytes`: models the reason of a refusal but not its detail.
- `Clients.CoordinatorClient.Submit`: stated for one account, one boot, and fewer than 2^64 - 4 decided slots (`Clients.CoordinatorClient.Place` says what moving to another account does); the Describe form of `submit` is the method `Describe`. The connection's frames are taken to deliver a message whole or not at all.
- File-system calls, fsync, rename, entropy, sockets, server threads, shutdown and the mutexes.
- `FileJournals.FileJournal.Append`: device errors other than a write cut short are not modelled.
- EngineStats, `journal_records_`, `explain`, rendering, command line tools, reason names, hello messages and `CheckedAccumulator`: no authority, or easy members.
