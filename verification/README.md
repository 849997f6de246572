# Verification model of activegraph-surrealdb

`activegraph-surrealdb` keeps the event log of an ActiveGraph run and a graph projection of it in
one SurrealDB database. This project models the protocols behind both and proves what they promise.
`dafny verify dfyconfig.toml` checks everything.

The model has four parts.

**The log.** A run's log is a hash chain of events. `serde.dfy` and `canonical_json.dfy` define the
canonical text the hashes are taken over, `event_log.dfy` the chain and its verification loop,
`key_order.dfy` the order of keys in that text.
`ledger.dfy` to `ledger_theorems.dfy` define a database of keyed rows with snapshot transactions
(a transaction reads its snapshot and its own writes; the first committer of a record wins; an abort
has no effect) and any number of store handles that take their steps in any order. A schedule names
the handle of each step and how a commit ends: acknowledged, in effect but not acknowledged, or
refused. `logs` in a server state and `observed` in a handle are auxiliary: no choice depends on
them. `event_store.dfy` is the store object itself, whose methods are interleaved with arbitrary
schedules of all other handles. `ledger_progress.dfy` shows the other side: what nobody interferes
with succeeds, so the safety results are not met by refusing. `ledger_restores.dfy` builds on it (restoring
logs, forks of forks), `ledger_metadata.dfy` sets metadata updates beside the other operations.

**The projection.** `graph_tables.dfy` has the vertex, relation and patch tables of all runs,
`graph_refinement.dfy` relates them to plain maps, `object_order.dfy`, `projection_reads.dfy` and
`reference_order.dfy` cover the listing order and query pushdown, `neighborhood.dfy` the
breadth-first walk.

**Replay.** `projection_store.dfy` is the graph store with its status record, on a database each of
whose statements may succeed, fail without effect, or take effect and still raise. `replay.dfy`
rebuilds a projection from an event store and records every state on the way. The framework's
`_replay_event` is a parameter: each event yields a list of mutations and possibly an exception.

**Schema.** `schema_upgrade.dfy` has any number of interleaved openers and the connection's own
`ensure_schema`.

Hash functions are parameters and nothing is assumed about them. Where the code relies on a hash,
the result reads "equal, or these two different texts have the same hash": `TailCollision` walks back
from two given logs, and `KeyClash` names two part lists.

## Where the code does less than one might expect

- A replay that raises does not always leave the status other than ready or the rows untouched.
  If marking the projection ready takes effect without acknowledgement and the record of that failure
  is then refused, the projection stays ready with the new, complete rows. `Replay.ReplayGraph` and
  `Replay.FailureRecorded` prove that this is the only such case; `Replay.ReadyAfterFailure` gives an
  instance. Even then only the old or the complete rows are ever served to other handles.
- A handle whose own rebuild failed and whose failure record was refused keeps its rebuilding flag,
  so it is still served rows that are being rebuilt; a handle whose flag is not set never is. `Replay.FailureServed` has
  the exact condition, `Replay.StuckRebuild` an instance.
- `ready` alone does not mean "equals the log": a missing status record is created ready
  (`ProjectionStore.SurrealGraphStore.Open`).
- `truncate_after` compares the scope and run of the row it finds, not its event ID, so its results
  carry the alternative of a record-key collision.
- `put_object`, `put_patch`, `remove_relation`, `remove_patch` and the status upsert do not look at
  the row under their key at all, so the refinement results carry the same alternative; for the status
  it is `ProjectionStore.OtherStatusKept` and `ProjectionStore.ClashTakesRecord`.
- Recording schema version 3 is not conditional on the version still being lower: among openers of
  this provider version it never goes down, and `SchemaUpgrade.LoweredExactly` says when it does
  otherwise.
- A metadata update writes the run row, so it aborts an append, truncation or fork of the same run
  that is under way (`LedgerMetadata.UpsertAborts`), and it does not commute with a fork when it
  changes the goal or the frame, which the child copies (`LedgerMetadata.UpsertCommutesWithFork`).

## Model

| member | source | states |
|---|---|---|
| `LedgerTheorems.SchedulesRefineAtomicOperations` | src/activegraph_surrealdb/event_store.py:84-510 | Any schedule of begin, read, stage, commit and cancel steps by any number of handles keeps the event and run rows an exact image of one log per run, and the logs change exactly as a sequence of atomic appends, cuts, copies and creations taken at the commits |
| `LedgerTheorems.ReachableSound` | src/activegraph_surrealdb/event_store.py:84-510 | The same from an empty database: every reachable database holds exactly its logs, and every handle remembers the head of the log it last observed |
| `LedgerCommits.HeadUntouched` | src/activegraph_surrealdb/event_store.py:484-492 | If no commit since a snapshot wrote a run row, that run has the same log and the same run row now as in the snapshot, and the row holds the log's length and head: the single head record guards the whole run |
| `LedgerCommits.RunUntouched` | src/activegraph_surrealdb/event_store.py:484-492 | Then all event rows of the run are the same, too |
| `LedgerCommits.AppendCommits` | src/activegraph_surrealdb/event_store.py:89-141 | A conflict-free append commit leaves the rows of the run's current log extended by the canonical event; every other log keeps its rows |
| `LedgerCommits.TruncateCommits` | src/activegraph_surrealdb/event_store.py:195-221 | A conflict-free truncation deletes exactly the rows past the cutoff of the current log, although the range delete chose its rows in the snapshot |
| `LedgerCommits.ForkCommits` | src/activegraph_surrealdb/event_store.py:471-510 | A conflict-free fork commit adds the child with the rows and head of the copied prefix and leaves the parent's head and rows as they are |
| `LedgerRuns.SelectsRows` | src/activegraph_surrealdb/event_store.py:574-581 | The ordered query over the event table returns exactly the rows of the run's log, gap-free and in sequence order |
| `LedgerRuns.PlanForkHolds` | src/activegraph_surrealdb/event_store.py:424-439 | In any schedule a fork is planned only from an uncompacted log with the head the handle remembers, at an event it has, into a run that does not exist |
| `LedgerRuns.ActKeeps` | src/activegraph_surrealdb/event_store.py:84-331 | One step of one handle keeps rows and logs in agreement, keeps what the handle knows true, changes the logs by exactly one atomic operation, and disturbs no record it did not commit |
| `LedgerRuns.HandleStable` | src/activegraph_surrealdb/event_store.py:84-526 | What a handle knows (its snapshot, staged writes, fork plan, remembered head) stays true under every commit of others |
| `LedgerTheorems.StoredRunsVerify` | src/activegraph_surrealdb/event_store.py:589-616 | Every log reached by appends, truncations and forks passes verification (sequence from 0, hashes linked, head equal to tail) and yields itself; its event IDs are distinct |
| `LedgerTheorems.TornReadsAreSafe` | src/activegraph_surrealdb/event_store.py:572-617 | Event rows read at one moment and the run row at another: if they verify together, the events are the log at the second read, or the two histories exhibit two different preimages with one hash |
| `LedgerTheorems.AppendActsOnObservedLog` | src/activegraph_surrealdb/event_store.py:119-150 | ABA safety of append: a commit extends the log the handle last observed, event for event, even if others truncated and appended in between, or a hash collision is exhibited; the handle moves on only if the commit was acknowledged |
| `LedgerTheorems.TruncateActsOnObservedLog` | src/activegraph_surrealdb/event_store.py:206-230 | ABA safety of truncation: a commit keeps exactly the inclusive prefix of the observed log ending at the requested event, or two hashes or two record keys collide |
| `LedgerTheorems.ForkCopiesPrefix` | src/activegraph_surrealdb/event_store.py:415-510 | A committed fork adds one run whose log is the inclusive prefix of the parent's log at the commit (or a collision is exhibited); the parent, every other log and every remembered head stay valid |
| `LedgerRestores.ForksCompose` | src/activegraph_surrealdb/event_store.py:415-510 | On a database: forking a run, then forking the child at an earlier event, gives the grandchild the rows, sequence and head that forking the parent there directly gives |
| `LedgerTheorems.ChainDependsOnlyOnEvents` | src/activegraph_surrealdb/serde.py:57-80 | Two databases with any histories that hold the same log of a run hold the same rows, the same length and the same head hash for it |
| `LedgerRestores.ReappendRestores` | src/activegraph_surrealdb/event_store.py:84-230 | An up-to-date handle that truncates and appends decoded copies of the removed events succeeds at every step (the freed keys are free) and leaves every event row, the sequence and the head as before |
| `LedgerRestores.RestoreExtends` | src/activegraph_surrealdb/event_store.py:84-150 | An up-to-date handle appends any list of decoded events whose keys are free, one by one: all succeed, the log ends extended by exactly those events, and no other key is used |
| `LedgerRestores.RestoreIntoEmptyRun` | src/activegraph_surrealdb/event_store.py:84-150 | A run exported from any database and appended event by event into an empty run of its name in any other database gets the same event rows, sequence and head, or two record keys clash |
| `LedgerRestores.RemovedKeysAreFree` | src/activegraph_surrealdb/event_store.py:208-216 | After a truncation the keys of all removed events are free and distinct |
| `LedgerTheorems.AbortsChangeNothing` | src/activegraph_surrealdb/event_store.py:142-147 | A step without an acknowledged commit leaves the handle's remembered head; one without any commit leaves the database too |
| `LedgerTheorems.LostAcknowledgementIsAtMostOnce` | src/activegraph_surrealdb/event_store.py:129-150 | Whatever others do, a handle whose remembered log is not the current one never again appends or truncates, as long as that stays so and no hash collides |
| `LedgerTheorems.UnacknowledgedAppendGoesStale` | src/activegraph_surrealdb/event_store.py:129-150 | An append whose commit took effect but raised has added exactly one event and leaves its handle in that state at once, or a collision is exhibited |
| `LedgerTheorems.StepsAreIsolated` | src/activegraph_surrealdb/event_store.py:208-216 | No step changes, removes or adds a row of any run but the handle's own, except the child rows a fork adds |
| `LedgerTheorems.UpsertKeepsHeads` | src/activegraph_surrealdb/event_store.py:316-331 | Updating run metadata changes no head, no event row and, for an existing run, no log |
| `LedgerRuns.UpsertKeeps` | src/activegraph_surrealdb/event_store.py:294-331 | A metadata update or insert keeps every log represented; what it changes is the run row it commits |
| `LedgerMetadata.UpsertCommutesWithAppend` | src/activegraph_surrealdb/event_store.py:316-331 | Updating metadata of any existing run before or after an uncontended append gives the same database |
| `LedgerMetadata.UpsertCommutesWithTruncate` | src/activegraph_surrealdb/event_store.py:316-331 | The same for an uncontended truncation |
| `LedgerMetadata.UpsertCommutesWithFork` | src/activegraph_surrealdb/event_store.py:484-507 | For an uncontended fork the two orders give the same database exactly when the updated run is not the parent or the update leaves the parent's goal and frame as they are, because the child copies both |
| `LedgerMetadata.UpsertAborts` | src/activegraph_surrealdb/event_store.py:316-331 | A metadata update inside a transaction makes its commit fail exactly when it changes something and the transaction writes the updated run's row, unless the commit fails anyway |
| `LedgerMetadata.UpsertAbortsHeadWriters` | src/activegraph_surrealdb/event_store.py:316-331 | So any changing update of a run aborts every append, truncation or fork of it that is under way |
| `LedgerProgress.UncontendedOpen` | src/activegraph_surrealdb/event_store.py:62-69 | A handle opened on any existing run verifies it and observes exactly its log |
| `LedgerProgress.UncontendedAppend` | src/activegraph_surrealdb/event_store.py:84-150 | A handle that observed the current log, with nobody in between, does append any encodable event whose key is free, and observes the result |
| `LedgerProgress.UncontendedTruncate` | src/activegraph_surrealdb/event_store.py:192-230 | Such a handle can truncate after any event of its log, and is left with exactly that prefix |
| `LedgerProgress.UncontendedFork` | src/activegraph_surrealdb/event_store.py:415-510 | Such a handle can fork its uncompacted run at any of its events into a run that does not exist, and stays up to date |
| `EventStore.UpsertMerges` | src/activegraph_surrealdb/event_store.py:316-331 | No metadata field with a stored value is ever cleared; each given value is taken, each other field, the creation time, the length and the head stay |
| `EventLog.VerifyRows` | src/activegraph_surrealdb/event_store.py:586-617 | Accepts exactly the rows that are, one by one, the run's own, in sequence, decodable, linked to the hash stored before them and hashed over that, as many and with the last hash as the run row says; returns the events they decode to |
| `EventLog.HeadDeterminesHistory` | src/activegraph_surrealdb/event_store.py:586-616 | Two logs of one scope and run with the same head hash are equal in length and event for event, or walking back from both tails finds two different preimages with the same hash |
| `EventLog.TailCollisionExhibits` | src/activegraph_surrealdb/serde.py:80 | The collision it speaks of is two different hashed texts, one of each log, with one digest |
| `EventLog.AcceptedHistoriesAgree` | src/activegraph_surrealdb/event_store.py:586-616 | Two sets of rows accepted against the same run row carry the same log, or such a collision |
| `EventLog.NewRowExtends` | src/activegraph_surrealdb/event_store.py:109-128 | The row append creates, hashed over the caller's payload, is the last row of the log extended by the decoded event |
| `EventLog.ChildRows` | src/activegraph_surrealdb/event_store.py:441-469 | The re-hashing loop of a fork builds exactly the rows and head of the prefix under the child's run ID |
| `EventLog.ChainedLogIsUnique` | src/activegraph_surrealdb/event_store.py:599-609 | A set of rows decodes to at most one log |
| `EventStore.SurrealEventStore.Open` | src/activegraph_surrealdb/event_store.py:62-73 | A constructed store remembers a log that is the run's log at the second read (or collides with it), whatever commits fell between its two reads; all it does to the database, failing or not, is create the run if it is new |
| `EventStore.WithRunKeeps` | src/activegraph_surrealdb/event_store.py:531-554 | Creating the run adds its empty log and changes no row that is there |
| `EventStore.SurrealEventStore.Append` | src/activegraph_surrealdb/event_store.py:84-150 | Success extends the log as it stands at the commit, which is the observed one, by the canonical event and remembers the result; failure keeps the remembered head and leaves the log, or, unacknowledged, has appended exactly once; each refusal has its own error, an unencodable payload before all others; an unhindered append of a fresh event succeeds |
| `EventStore.SurrealEventStore.TruncateAfter` | src/activegraph_surrealdb/event_store.py:192-230 | Success cuts the log after the requested event and remembers the cut log; failure keeps the remembered head and the log, or, unacknowledged, has cut exactly so; each refusal has its own error; unhindered, it succeeds for every event of the log |
| `EventStore.SurrealEventStore.ForkPrefix` | src/activegraph_surrealdb/event_store.py:415-526 | Success adds one run holding the inclusive prefix up to the requested event and changes no other log; never of a compacted log nor of one whose head is not the one remembered, each refused with its own error and no effect; the child's row names its origin and has the parent's goal and frame; unhindered, it succeeds wherever the run can be forked |
| `EventStore.SurrealEventStore.IterEvents` | src/activegraph_surrealdb/event_store.py:152-167 | Yields, in log order, exactly the events after one boundary up to and including the other, of the log as it stands at the second read; fails on an unknown boundary and, with no commit between its reads, on nothing else |
| `EventStore.SurrealEventStore.UpsertRunRow` | src/activegraph_surrealdb/event_store.py:274-331 | Keeps every log, every event row and the remembered head, and merges the given metadata field by field into the run row |
| `EventStore.StageChild` | src/activegraph_surrealdb/event_store.py:502-509 | Staging the child rows one by one succeeds exactly when all their keys are free and distinct |
| `EventStore.SelectBetween` | src/activegraph_surrealdb/event_store.py:157-167 | The filtering loop selects, in log order, exactly the events after one boundary up to and including the other, and fails exactly on an unknown boundary |
| `EventStore.BetweenIsWindow` | src/activegraph_surrealdb/event_store.py:157-167 | The selected events are, in log order, exactly those at positions after the event `after` and not after the event `until`; there is no selection exactly when a boundary is not in the log |
| `EventStore.SplitsAt` | src/activegraph_surrealdb/event_store.py:157-167 | For any event of a log the part up to it, which ends with it, followed by the part after it is the whole log |
| `EventStore.SurrealEventStore.VerifiedLog` | src/activegraph_surrealdb/event_store.py:572-617 | Two reads with other handles' steps in between yield a log that is the run's at the second read, or collides with it; with no step in between they always succeed |
| `EventStore.SurrealEventStore.SurveyFork` | src/activegraph_surrealdb/event_store.py:423-439 | A fork goes on only with the head the handle remembers, an uncompacted log that has the event and a free child; undisturbed, each refusal has its own error |
| `EventStore.HeadMovedMeans` | src/activegraph_surrealdb/event_store.py:619-626 | The head check fails exactly when the log has another length or another head hash than the handle remembers |
| `CanonicalJson.LoadsDump` | src/activegraph_surrealdb/serde.py:20-26 | Reading canonical text gives back the value it was written from, for every nested value and every string |
| `CanonicalJson.DumpInjective` | src/activegraph_surrealdb/serde.py:21-26 | Equal canonical texts come from equal values |
| `CanonicalJson.EscapeIsShortest` | src/activegraph_surrealdb/serde.py:21-26 | Of all spellings a reader takes for a character the canonical one is a shortest: nothing is escaped without need, and short escapes are used |
| `CanonicalJson.IntTextIsPlain` | src/activegraph_surrealdb/serde.py:21-26 | Numbers have no leading zero and a sign only when negative |
| `KeyOrder.KeysAreOrderedByCodePoint` | src/activegraph_surrealdb/serde.py:21-26 | In the text of any object, read from left to right, every key occurs once and the keys ascend by code point |
| `KeyOrder.OrdersDisagree` | src/activegraph_surrealdb/serde.py:25 | Code-point order and the UTF-16 order of RFC 8785 disagree on two texts exactly when these first differ in a character beyond U+FFFF against one from U+E000 to U+FFFF |
| `KeyOrder.TextIsInUtf16Order` | src/activegraph_surrealdb/serde.py:25 | The keys of an object's text are also in UTF-16 order exactly when no two of them are such a pair |
| `Serde.CanonicalTextIsStable` | src/activegraph_surrealdb/serde.py:16-26 | Canonical text parses to the adapted value and re-encoding that value gives the same text |
| `Serde.CanonicalTextEncodes` | src/activegraph_surrealdb/serde.py:16-26 | The text reads back as what the value is, case by case at every depth: sets as ascending arrays of exactly their elements, dates and decimals as their texts; and a value has no text exactly when something in it has no adapter |
| `Serde.AdaptEncodes` | src/activegraph_surrealdb/serde.py:20 | The adapter's result is the only JSON value that encodes the value in that sense |
| `Serde.CanonEncodes` | src/activegraph_surrealdb/serde.py:29-54 | A stored event keeps every field in its own place and its payload encodes the caller's; it cannot be stored exactly when something in its payload has no adapter |
| `Serde.CanonicalTextIgnoresOrder` | src/activegraph_surrealdb/serde.py:16-26 | The text of any value, decimals, dates and sets at any depth included, does not depend on the order in which any dictionary in it was filled; nor does whether it can be encoded |
| `Serde.CanonicalTextIdentifiesValues` | src/activegraph_surrealdb/serde.py:16-26 | For values JSON represents as themselves, texts are equal exactly when the values have the same kinds and contents, dictionaries as mappings |
| `Serde.TextualIsItsText` | src/activegraph_surrealdb/serde.py:19-20 | Other values are not told apart: a date and its text encode alike |
| `Serde.EventRoundTrip` | src/activegraph_surrealdb/serde.py:29-54 | Storing and decoding an event yields its canonical form, and storing that form again changes nothing |
| `Serde.PreimageSurvivesStorage` | src/activegraph_surrealdb/serde.py:57-80 | The text hashed at append time over the original payload is the text hashed at verification over the decoded row |
| `Serde.PreimageInjective` | src/activegraph_surrealdb/serde.py:67-79 | Every event field, the position, the run and the previous hash can be read off the hashed text |
| `Serde.PreimageReads` | src/activegraph_surrealdb/serde.py:67-79 | The hashed text is one object of eleven fields, each holding its own part of the event under its own name |
| `Keys.FrameInjective` | src/activegraph_surrealdb/keys.py:12-15 | Distinct part lists (parts below 2^64 bytes) never feed the digest the same bytes |
| `Keys.FrameShape` | src/activegraph_surrealdb/keys.py:12-15 | Each part is preceded by its byte length in eight bytes, the most significant first |
| `Keys.FramableBelow2To64` | src/activegraph_surrealdb/keys.py:14 | Exactly the lists whose parts are shorter than 2^64 bytes can be framed |
| `Keys.KeysClashOnlyOnCollision` | src/activegraph_surrealdb/keys.py:8-16 | Two part lists share a key only if they are equal or their framings are two preimages of one digest |
| `Keys.RecordKey` | src/activegraph_surrealdb/keys.py:8-16 | The loop feeding length then bytes computes the digest of the whole framing, and fails exactly on a part too long for its length field |
| `Keys.Utf8Injective` | src/activegraph_surrealdb/keys.py:13 | Distinct texts have distinct UTF-8 encodings |
| `GraphTables.KeyClashIsDigestCollision` | src/activegraph_surrealdb/connection.py:100-103 | Two record IDs of different logical identity coincide only if two different framings have one digest |
| `GraphTables.ClashExhibitsKeys` | src/activegraph_surrealdb/graph_store.py:528-537 | A mutation that meets a row of another identity under its key exhibits two different part lists with one key |
| `GraphRefinement.MutationRefines` | src/activegraph_surrealdb/graph_store.py:75-180 | Without such a clash every put, remove and clear step succeeds, keeps both endpoints of every relation stored under the right logical IDs, changes the run's graph as plain maps would, and touches no row of another run |
| `GraphRefinement.WritesRefine` | src/activegraph_surrealdb/graph_store.py:75-180 | After any sequence of writes to any runs each run's rows hold the graph its own writes build on plain maps |
| `GraphRefinement.TablesRefineMaps` | src/activegraph_surrealdb/graph_store.py:75-180 | The same from empty tables with no assumption: or two part lists with one key are produced |
| `GraphRefinement.ObjectIsLastPut` | src/activegraph_surrealdb/graph_store.py:75-104 | The maps hold an object exactly when the run put it and has since neither put its ID again, nor removed it, nor cleared its vertices |
| `GraphRefinement.RelationIsLastPut` | src/activegraph_surrealdb/graph_store.py:120-157 | The same for a relation; removing the objects at its ends does not matter |
| `GraphRefinement.PatchIsLastPut` | src/activegraph_surrealdb/graph_store.py:342-374 | The same for a patch |
| `GraphRefinement.CascadeStaysInRun` | src/activegraph_surrealdb/graph_store.py:412-422 | Deleting a run's vertices cascades to exactly that run's edges, at whatever point of the three deletes |
| `GraphRefinement.RemovalKeepsRelations` | src/activegraph_surrealdb/graph_store.py:94-104 | Removing an object keeps every relation and leaves its vertex as a placeholder |
| `GraphRefinement.EnsureBothKeeps` | src/activegraph_surrealdb/graph_store.py:127-128 | Stubbing the two endpoints of a relation stores both, keeps every row already there and adds no object |
| `ObjectOrder.ObjectSeqOfMatch` | src/activegraph_surrealdb/graph_store.py:544-558 | An ID ending in # and digits yields the value of those digits, whatever precedes, # and digits included |
| `ObjectOrder.ObjectSeqWithoutMatch` | src/activegraph_surrealdb/graph_store.py:557-558 | Every other ID yields 0 |
| `ObjectOrder.ObjectSeqOfFrameworkId` | src/activegraph_surrealdb/graph_store.py:547-558 | The counter printed into a framework ID is recovered from it |
| `Decimals.PrintValue` | src/activegraph_surrealdb/graph_store.py:558 | A printed number reads back as itself |
| `ProjectionReads.SelectsListing` | src/activegraph_surrealdb/graph_store.py:106-115 | The ordered query over vertex rows lists exactly the kept objects by counter, ties by ID: placeholders and other runs never show |
| `ProjectionReads.PushdownPreservesMeaning` | src/activegraph_surrealdb/graph_store.py:186-194 | Applying the residual predicate and the limit to the returned candidates gives type filter, predicate, limit over the full scan; the existence probe agrees with the scan being non-empty |
| `ProjectionReads.QueryAnswers` | src/activegraph_surrealdb/graph_store.py:186-194 | Field by field: every candidate is stored and of the type asked for, the predicate comes back unchanged, the finished listing is all matching objects in order or the first of them up to the limit, and the probe tells whether any object matches |
| `ProjectionReads.ObjectsInOrder` | src/activegraph_surrealdb/graph_store.py:293 | Objects come in increasing counter, ties by ID in code-point order |
| `ProjectionReads.RelationsInOrder` | src/activegraph_surrealdb/graph_store.py:238 | Relations come in increasing ID in code-point order |
| `ProjectionReads.FindInTypesIsFilter` | src/activegraph_surrealdb/graph_store.py:202-216 | Finding by several types is the order-preserving filter of the full scan, also for no types |
| `ProjectionReads.FindInTypesAnswers` | src/activegraph_surrealdb/graph_store.py:202-216 | An object is found exactly when it is stored and its type is one of those given |
| `ProjectionReads.FindRelationsIsFilter` | src/activegraph_surrealdb/graph_store.py:218-241 | Finding relations by source, target and type is the order-preserving filter of all relations |
| `ProjectionReads.FindRelationsAnswers` | src/activegraph_surrealdb/graph_store.py:218-241 | A relation is found exactly when it is stored and its source, target and type are the ones given, each where given |
| `ReferenceOrder.ReadsKeepReferenceOrder` | src/activegraph_surrealdb/graph_store.py:106-115 | While new objects get ever higher counters, reading the table in counter order gives the insertion order of an in-memory store after any mix of puts, re-puts, removals, stubs and clears, interleaved with other runs |
| `Neighborhood.Walk` | src/activegraph_surrealdb/graph_store.py:243-282 | Returns exactly the present objects within the given undirected distance of a present start, paths passing through placeholders, in listing order, and the relations with an end within one less; nothing around an absent start |
| `Neighborhood.ShallowWalkIsStart` | src/activegraph_surrealdb/graph_store.py:259-282 | A depth of zero or less returns the start alone and no relation |
| `Neighborhood.OneLevelIsIncident` | src/activegraph_surrealdb/graph_store.py:259-282 | A depth of one returns the start, the present objects some relation joins to it, and exactly its own relations |
| `Neighborhood.Expand` | src/activegraph_surrealdb/graph_store.py:259-278 | One level meets exactly the relations touching the frontier, and its next frontier is their unseen ends |
| `Neighborhood.BallIsWithin` | src/activegraph_surrealdb/graph_store.py:256-278 | The vertices of the level-by-level expansion are those some path of at most that many relations reaches |
| `Neighborhood.NoFurther` | src/activegraph_surrealdb/graph_store.py:260-261 | Stopping at an empty frontier gives the answer of every larger depth |
| `Neighborhood.DeepWalkIsComponent` | src/activegraph_surrealdb/graph_store.py:243-282 | From the number of stored vertices on, the result is the whole connected component |
| `Neighborhood.DeeperWalkContains` | src/activegraph_surrealdb/graph_store.py:243-282 | A larger depth never loses an object or a relation |
| `Neighborhood.GetsObject` | src/activegraph_surrealdb/graph_store.py:86-92 | Reading one object answers the object map, and raises only over a key that holds another identity |
| `ProjectionStore.SurrealGraphStore.Open` | src/activegraph_surrealdb/graph_store.py:443-460 | A fresh status record is created ready over unchanged rows; an existing one is left alone; a record of another run under the key makes it fail and change nothing |
| `ProjectionStore.OtherStatusKept` | src/activegraph_surrealdb/graph_store.py:473-483 | A status write leaves every other run's status as it was, or the two runs' keys clash |
| `ProjectionStore.ClashTakesRecord` | src/activegraph_surrealdb/graph_store.py:473-483 | The status upsert takes another run's record exactly when their keys clash |
| `ProjectionStore.SurrealGraphStore.Write` | src/activegraph_surrealdb/graph_store.py:75-145 | A guarded mutation takes effect only in a served state and then exactly as the table mutation; otherwise nothing changes |
| `ProjectionStore.SurrealGraphStore.Clear` | src/activegraph_surrealdb/graph_store.py:412-422 | Three deletes, any of which may fail: on every exit the rows are exactly those left by the deletes that took effect, and success means all were acknowledged |
| `ProjectionStore.SurrealGraphStore.BeginRebuild` | src/activegraph_surrealdb/graph_store.py:379-385 | Every state it passes through is hidden from other handles or is the one before it; on every exit the rows are those left by the deletes that took effect, and the rebuilding flag is set exactly when the mark was acknowledged |
| `ProjectionStore.SurrealGraphStore.Neighbors` | src/activegraph_surrealdb/graph_store.py:252-282 | Answers exactly when the status guard lets it and the start's row is its own, and then with the neighbourhood of the graph the rows hold |
| `ProjectionStore.PartlyKeeps` | src/activegraph_surrealdb/graph_store.py:412-422 | However far a sequence of mutations got, the rows are well formed and other runs' rows untouched, or a key clash |
| `ProjectionStore.MutateAllRefines` | src/activegraph_surrealdb/graph_store.py:75-180 | Every sequence of mutations, at every prefix, leaves well-formed rows that hold the plain-map graph and other runs' rows untouched, or a key clash |
| `ProjectionStore.RebuiltHoldsFold` | src/activegraph_surrealdb/graph_store.py:379-422 | Clearing then mutating holds the graph of the mutations alone, whatever rows the run had before |
| `Replay.ReplayGraph` | src/activegraph_surrealdb/runtime.py:16-44 | Mismatched run or scope changes nothing; success exactly when the log is readable, uncompacted and replayable and all statements are acknowledged, and then the projection is ready and complete; every state on the way that others are served has the old rows or the complete ones; a failed replay is ready with changed rows exactly when marking it ready took effect unacknowledged and recording the failure was refused; on every exit and in every state on the way the rows are those after some of the rebuild's mutations, and after a failure the rebuilding flag and what the handle is served are determined |
| `Replay.ReplayEvents` | src/activegraph_surrealdb/runtime.py:34-36 | Replaying the events in order succeeds exactly when no event raises, no mutation raises and every statement is acknowledged, and has then made all mutations of the log |
| `Replay.CompleteHoldsFold` | src/activegraph_surrealdb/runtime.py:26-38 | A complete replay holds the fold of the log from the empty graph, whatever rows were there before, with other runs' rows untouched, or a key clash |
| `Replay.ReadyAfterFailure` | src/activegraph_surrealdb/runtime.py:39-44 | An instance in which a replay that raised leaves the status ready over changed rows |
| `Replay.FailureRecorded` | src/activegraph_surrealdb/runtime.py:39-44 | Both directions of the condition under which a failed replay ends ready with changed rows |
| `Replay.FailureServed` | src/activegraph_surrealdb/runtime.py:39-44 | After a failure the handle itself is served rows that are neither the old nor the complete ones exactly when the rebuild had begun, had changed rows short of complete, and the failure record was refused |
| `Replay.StuckRebuild` | src/activegraph_surrealdb/runtime.py:39-44 | An instance: a handle served a projection whose stale rows were cleared and never rebuilt, while every other handle is refused |
| `Replay.FailureKeepsRows` | src/activegraph_surrealdb/runtime.py:26-44 | However a replay ends, and in every state on the way, the rows are well formed and every other run's rows are untouched, or a key clash |
| `Replay.RetryHoldsFold` | src/activegraph_surrealdb/runtime.py:16-44 | Replaying again over what a failed replay left ends, when it completes, with the fold of the log and other runs' rows as before the first attempt, or a key clash |
| `SchemaUpgrade.UpgradesAreSafe` | src/activegraph_surrealdb/connection.py:112-191 | For any interleaving of openers, each losing or stopping after any statement: a recorded version implies its definitions, versions and definitions never go back, and every opener that returned sees the complete version 3 schema |
| `SchemaUpgrade.SurrealConnection.EnsureSchema` | src/activegraph_surrealdb/connection.py:112-191 | Returning means the complete schema is there; without failures and from a supported version it does return, whatever other openers do; an unsupported version is rejected and kept |
| `SchemaUpgrade.GrowthKeeps` | src/activegraph_surrealdb/connection.py:182-189 | Growth of the catalog by anybody leaves every opener's knowledge and the recorded promise true |
| `SchemaUpgrade.StepGrows` | src/activegraph_surrealdb/connection.py:120-191 | Every statement of an opener, acknowledged or not, only adds definitions or raises a complete schema's version to 3 |
| `SchemaUpgrade.UpgradesFromScratch` | src/activegraph_surrealdb/connection.py:112-191 | The same started from a database with no version record or a sound version 1 to 3; the version then stays in that range |
| `SchemaUpgrade.UnsupportedIsKept` | src/activegraph_surrealdb/connection.py:131-132 | From a version below 1 or above 3 no opener changes anything or returns |
| `SchemaUpgrade.LoweredExactly` | src/activegraph_surrealdb/connection.py:181-189 | With openers of later provider versions in between, a statement lowers the recorded version exactly when it is the update of an opener that judged the version too low, takes effect, and a version above 3 is recorded |
| `SchemaUpgrade.LaterProviderIsLowered` | src/activegraph_surrealdb/connection.py:181-189 | A schedule, from any sound version 2, in which an opener takes a later provider's version 4 back to 3 |

## Left out

- WebSocket connection, sign-in, session teardown, server version parsing and the wait loops: network I/O and timing.
- SurrealDB itself: only keyed rows, replacing upserts, snapshot transactions with write conflicts, ordered queries and the cascade of vertex deletion are modelled; unique indexes are implied by the row keys and indexes that only speed up queries are not modelled.
- Splitting of `schema.surql` into statements, and statements that drop indexes from outside the provider.
- Floats, insignificant whitespace and surrogate pairs in JSON text: the reader covers canonical text and its close variants.
- Payload dictionaries with keys other than strings.
- Unicode digits and a trailing newline after the digits of an object ID, and object counters beyond 64 bits.
- Classification of an error as a conflict by its text: a failed commit is reported as concurrent exactly when the head is seen to have moved.
- Parts of 2^64 bytes or more: `to_bytes` raises before any database statement; keys of such parts are `None`.
- Concurrent rebuilds of one projection, and writers of a run during its own neighbourhood walk or its status check: the code gives no guarantee there, and each guarded operation is one step.
- Writers of other runs during a replay: the replay has the projection database to itself; interleaved writes of several runs are covered by `GraphRefinement.WritesRefine`.
- The framework's `Graph`, `Runtime`, `diff`, `match_chain` and behaviours; the payload adapter is modelled from its documented cases.
- `get_event`, `count`, `most_recent_run_id`, `inspect_run_artifacts`, `run_exists` and object, relation and patch record conversions: single lookups and field-by-field copies, not part of this model.
- The store object a fork returns: `ForkPrefix` yields the child's run ID, and opening it is `Open`.
- `datetime` stamps and the error texts of raised exceptions.
- Neighborhood.Walk: the relations are returned as a set, because the query that fetches them states no order.
