# Session lifecycle simulator and dual-sink batch builder

This project models the data generator of a change-data-capture demo. The generator keeps a
working set of synthetic web sessions. On every tick it creates new sessions, advances some
existing ones through their lifecycle (NEW → LOGGED_IN → LOGGED_OUT), deletes some, and evicts
the oldest ones beyond 10,000, abandoning them. Every transition lands in two batches:
- a Bigtable bulk mutation holding the current state (one upsert or delete-row entry per
  transition, keyed by session id);
- a BigQuery streaming-insert request holding change events (one row per transition, tagged
  with an operation code I/U/D and a sequence number from a counter that only increases).

A one-off backfill renders fresh sessions as `STRUCT(...)` constants inside `INSERT ... UNNEST([...])`
statements.

The model has two layers:

- **Values.** The `Simulation` module describes one tick as a function. It takes the working
  set's states, the parameters and the tick's inputs, and returns the working set afterwards and
  the events emitted, in order. The inputs are the UUIDs and clock readings of the new sessions,
  the update and delete draws, and the clock reading for logouts and abandons.
  `SimulationPhases`, `SimulationTick` and `SimulationRun` prove what the generator promises
  about one phase, one tick and a run of ticks.
- **Objects.** `DemoGenerator` carries out the tick as the Java code does:
  - a `seq<Session>` of mutable session objects, with sessions mutated in place and removed by
    index or from the front;
  - a `BulkMutation` and an `InsertAllRequestBuilder` appended to entry by entry;
  - the `insertSequence` counter field of `BigQueryService`.

  Each loop is proved against the phase function it carries out. So `RunTick` ends with
  exactly the working set and the two batches that `Simulation.Tick` describes.

`Session`, `Struct`, `BulkMutation`, `InsertAllRequestBuilder`, `BigtableService` and
`BigQueryService` are classes whose methods update their fields in place. Rendering functions
(`toBigQueryRow`, string literals, `STRUCT` text, mutations) are functions.

Where a reader might expect a guard, a saturating counter or an extra event, the model follows the Java code:
- `loggedIn`, `logout` and `abandon` are unconditional. The "advance only from NEW or LOGGED_IN"
  rule is the driver's `switch` (`DemoGenerator.AdvanceSession`, `Simulation.Advance`).
- The delete loop has no size guard. A delete draw on an empty list is `nextInt(0)`, which
  throws. The model reports this as `DeleteDrawFailed`, exactly when there are more deletes
  than sessions in a non-empty working set.
- The Bigtable commit runs first. If it throws, the BigQuery insert is never attempted
  (`BigtableFailed`).
- The sequence counter is a 32-bit `AtomicInteger`. Its first row gets 1.
- Update and delete counts are `insertsPerBatch * percent / 100` in Java `int` arithmetic: a
  product that wraps to 32 bits, then division truncating toward zero.
- Eviction emits only an UPDATE (the abandon), never a DELETE. A LOGGED_OUT session is dropped
  silently.

## Model

Paths are relative to the repository root. Abbreviations in the third column: "ws" is the
working set before the tick.

| member | source | states |
|---|---|---|
| Common.WrapInt32 | data-generator/src/main/java/com/google/demo/DemoGenerator.java:143 | the value of an `int` product: a Java int, congruent to the exact product modulo 2^32, equal to it when it fits |
| Common.JavaDiv | data-generator/src/main/java/com/google/demo/DemoGenerator.java:143 | Java's `/` rounds toward zero: for a ≥ 0, q·b ≤ a < q·b + b; for a < 0, q·b − b < a ≤ q·b (so −1 / 100 is 0, where floor division gives −1) |
| Common.NatToStringRoundTrip | data-generator/src/main/java/com/google/demo/DemoGenerator.java:149 | the decimal text of `i` in `"customer" + i` reads back as `i` |
| Common.JoinAppend | data-generator/src/main/java/com/google/demo/bigquery/Struct.java:56-62 | the `firstField` flag: appending a part adds the separator only when something came before |
| ConversionUtil.ConvertToTimestamp | data-generator/src/main/java/com/google/demo/bigquery/ConversionUtil.java:33-39 | null in exactly when null out; otherwise the formatted instant |
| BigQueryStruct.LookupFinds | data-generator/src/main/java/com/google/demo/bigquery/Struct.java:28 | in a map with unique keys, every stored key reads back its own value |
| BigQueryStruct.LookupMissing | data-generator/src/main/java/com/google/demo/bigquery/Struct.java:28 | a key that was never stored reads as absent |
| BigQueryStruct.PutThenLookup | data-generator/src/main/java/com/google/demo/bigquery/Struct.java:32 | after `put(k, v)`, k reads v and every other key reads as before |
| BigQueryStruct.PutExisting | data-generator/src/main/java/com/google/demo/bigquery/Struct.java:32 | `put` on a present key replaces its value at its original position (LinkedHashMap order) |
| BigQueryStruct.PutNew | data-generator/src/main/java/com/google/demo/bigquery/Struct.java:32 | `put` on an absent key appends it after all existing fields |
| BigQueryStruct.PutKeepsKeysUnique | data-generator/src/main/java/com/google/demo/bigquery/Struct.java:28-42 | `put` never creates a second entry for a key |
| BigQueryStruct.EscapeLength | data-generator/src/main/java/com/google/demo/bigquery/Struct.java:50 | escaping adds exactly one character per quote in the value |
| BigQueryStruct.UnescapeEscape | data-generator/src/main/java/com/google/demo/bigquery/Struct.java:50 | deleting the backslash before each quote of the escaped text gives the value back |
| BigQueryStruct.StringLiteralOfValue | data-generator/src/main/java/com/google/demo/bigquery/Struct.java:44-51 | a present string's literal is quoted, has length len(value) + 2 + (number of quotes), and its body unescapes to the value |
| BigQueryStruct.EscapeNoQuotes | data-generator/src/main/java/com/google/demo/bigquery/Struct.java:50 | a stretch without quotes is copied unchanged |
| BigQueryStruct.EscapeExample | data-generator/src/test/java/com/google/demo/bigquery/StructTest.java:28-29 | `Poor man's test` becomes the literal `'Poor man\'s test'` |
| BigQueryStruct.AddStringExample | data-generator/src/test/java/com/google/demo/bigquery/StructTest.java:24-30 | the unit test's two string fields render as `STRUCT('xyz' as abc,'Poor man\'s test' as dce)` |
| BigQueryStruct.Struct.constructor | data-generator/src/main/java/com/google/demo/bigquery/Struct.java:28 | a new struct has no fields |
| BigQueryStruct.Struct.AddString | data-generator/src/main/java/com/google/demo/bigquery/Struct.java:30-35 | returns the same object; a null value leaves the fields unchanged, otherwise the quoted, escaped literal is put under the name; keys stay unique |
| BigQueryStruct.Struct.AddTimestamp | data-generator/src/main/java/com/google/demo/bigquery/Struct.java:37-42 | returns the same object; a null instant leaves the fields unchanged, otherwise `TIMESTAMP('<formatted>')` is put under the name |
| BigQueryStruct.Struct.ToStructConstant | data-generator/src/main/java/com/google/demo/bigquery/Struct.java:53-67 | the loop with its `firstField` flag yields `STRUCT(` + the `value as name` items joined by commas in insertion order + `)`, so `STRUCT()` when empty |
| SessionModel.ParseStatus | data-generator/src/main/java/com/google/demo/model/Session.java:32 | a status name parses only to the status with that name |
| SessionModel.StatusNameRoundTrip | data-generator/src/main/java/com/google/demo/model/Session.java:32 | every status's `name()` parses back to that status |
| SessionModel.Session.constructor | data-generator/src/main/java/com/google/demo/model/Session.java:40-44 | a new session is NEW with no customer key and no end; id and start are the supplied UUID and clock reading |
| SessionModel.Session.LoggedIn | data-generator/src/main/java/com/google/demo/model/Session.java:46-49 | from any status: LOGGED_IN with the given key; id, start and end unchanged |
| SessionModel.Session.Abandon | data-generator/src/main/java/com/google/demo/model/Session.java:51-54 | from any status: ABANDONED with end = now; id, start and customer key unchanged |
| SessionModel.Session.Logout | data-generator/src/main/java/com/google/demo/model/Session.java:56-59 | from any status: LOGGED_OUT with end = now; id, start and customer key unchanged |
| SessionModel.RowShape | data-generator/src/main/java/com/google/demo/model/Session.java:61-69 | the row has exactly the five session columns; the id is the session id; the status decodes back to the session's status; customer_key and end_ts are null exactly when unset |
| SessionModel.StructBuiltByAdds | data-generator/src/main/java/com/google/demo/model/Session.java:71-80 | the five chained adds leave the fields in column order: id, status, customer key if set, start, end if set |
| SessionModel.Session.ToBigQueryStruct | data-generator/src/main/java/com/google/demo/model/Session.java:71-80 | a fresh struct with exactly those fields, in that order |
| SessionModel.StructAgreesWithRow | data-generator/src/main/java/com/google/demo/model/Session.java:61-80 | the struct's keys are the row's non-null columns in table order, each holding the SQL literal of the row's value |
| BigtableService.SetNonNullCell | data-generator/src/main/java/com/google/demo/BigtableService.java:80-86 | a null value leaves the mutation unchanged; otherwise exactly one cell is set after the existing operations |
| BigtableService.UpsertMutation | data-generator/src/main/java/com/google/demo/BigtableService.java:59-66 | the upsert's cells are status, customer key if set, start, end if set, in that order |
| BigtableService.UpsertAgreesWithRow | data-generator/src/main/java/com/google/demo/BigtableService.java:59-68 | every upsert cell is in family "main" and holds the non-null value of the same column of the BigQuery row; every non-null column but the id is a cell |
| BigtableService.BulkMutation.constructor | data-generator/src/main/java/com/google/demo/BigtableService.java:50 | a new bulk mutation targets the given table and has no entries |
| BigtableService.BulkMutation.Add | data-generator/src/main/java/com/google/demo/BigtableService.java:68 | appends one entry and keeps the earlier ones |
| BigtableService.BigtableService.CreateBulkMutationForSession | data-generator/src/main/java/com/google/demo/BigtableService.java:49-51 | a fresh, empty batch for table "session" |
| BigtableService.BigtableService.AddOrUpdateSession | data-generator/src/main/java/com/google/demo/BigtableService.java:59-69 | appends exactly one entry, keyed by the session id and holding its upsert mutation; earlier entries unchanged |
| BigtableService.BigtableService.DeleteSession | data-generator/src/main/java/com/google/demo/BigtableService.java:94-96 | appends exactly one delete-row entry keyed by the session id |
| BigQueryService.TaggedRowChangesOnlyTags | data-generator/src/main/java/com/google/demo/BigQueryService.java:81-87 | tagging adds or overwrites only di_operation_type and di_sequence_number; every other column keeps its value |
| BigQueryService.InsertAllRequestBuilder.constructor | data-generator/src/main/java/com/google/demo/DemoGenerator.java:129 | a new request targets the given table and has no rows |
| BigQueryService.InsertAllRequestBuilder.AddRow | data-generator/src/main/java/com/google/demo/BigQueryService.java:86 | appends the row at the end |
| BigQueryService.BigQueryService.constructor | data-generator/src/main/java/com/google/demo/BigQueryService.java:48 | the counter starts at 0, so the first row is numbered 1 |
| BigQueryService.BigQueryService.AddRowWithOperation | data-generator/src/main/java/com/google/demo/BigQueryService.java:81-87 | the counter goes up by one, and the request gains one row at its end: the row tagged with the operation and the new counter value |
| BigQueryService.BigQueryService.AddInsertRow | data-generator/src/main/java/com/google/demo/BigQueryService.java:60-62 | the same, tagged "I" |
| BigQueryService.BigQueryService.AddUpdateRow | data-generator/src/main/java/com/google/demo/BigQueryService.java:67-69 | the same, tagged "U" |
| BigQueryService.BigQueryService.AddDeleteRow | data-generator/src/main/java/com/google/demo/BigQueryService.java:74-76 | the same, tagged "D" |
| BigQueryService.NewSessionStructText | data-generator/src/main/java/com/google/demo/BigQueryService.java:107-113 | a fresh session renders as `STRUCT('<id>' as session_id,'NEW' as status,TIMESTAMP('<start>') as start_ts)` |
| BigQueryService.BatchSizesShape | data-generator/src/main/java/com/google/demo/BigQueryService.java:98-124 | with records remaining, the batch count n is ceil(recordCount / batchSize): (n-1)·batchSize < recordCount ≤ n·batchSize; batch i holds min(batchSize, recordCount − i·batchSize); the sizes add up to recordCount; no batch when recordCount ≤ 0 |
| BigQueryService.BatchesLength | data-generator/src/main/java/com/google/demo/BigQueryService.java:98-99 | one batch per batch size |
| BigQueryService.BatchAt | data-generator/src/main/java/com/google/demo/BigQueryService.java:98-114 | batch i is exactly the next run of seeds after those the earlier batches took |
| BigQueryService.BatchesCoverSeeds | data-generator/src/main/java/com/google/demo/BigQueryService.java:98-124 | together the batches use the first recordCount seeds, each once and in order |
| BigQueryService.BackfillQueryAt | data-generator/src/main/java/com/google/demo/BigQueryService.java:102-117 | statement i is ``INSERT INTO `p.d.t` SELECT * FROM UNNEST([`` + the structs of batch i joined by "," + `])` |
| BigQueryService.BackfillQueriesLength | data-generator/src/main/java/com/google/demo/BigQueryService.java:98-124 | one statement per batch |
| BigQueryService.BigQueryService.BatchQuery | data-generator/src/main/java/com/google/demo/BigQueryService.java:102-117 | the inner loop builds the statement for one batch: prefix, comma-separated structs of fresh sessions, `])` |
| BigQueryService.BigQueryService.DoBatchInserts | data-generator/src/main/java/com/google/demo/BigQueryService.java:95-125 | the outer loop issues exactly the statements of the batching above |
| BigQueryService.BigQueryService.RunInsertAll | data-generator/src/main/java/com/google/demo/BigQueryService.java:132-142 | fails exactly when the response reports errors, carrying those errors; otherwise reports the request's row count |
| Simulation.Tick | data-generator/src/main/java/com/google/demo/DemoGenerator.java:127-186 | a tick has no result exactly when ws is non-empty and the delete count exceeds its size |
| Simulation.BigQueryBatchConcat | data-generator/src/main/java/com/google/demo/BigQueryService.java:84 | the rows of later events are numbered on from where the earlier ones stopped |
| Simulation.Updates | data-generator/src/main/java/com/google/demo/DemoGenerator.java:143-160 | the update phase keeps the list's size and emits exactly one event per draw |
| Simulation.Deletes | data-generator/src/main/java/com/google/demo/DemoGenerator.java:163-172 | each delete draw removes exactly one session and emits exactly one event |
| SimulationPhases.EvictIsFifo | data-generator/src/main/java/com/google/demo/DemoGenerator.java:179-186 | eviction keeps the last min(10000, size) sessions unchanged and emits exactly the abandon events of the dropped prefix, front first |
| SimulationPhases.AbandonEventsShape | data-generator/src/main/java/com/google/demo/DemoGenerator.java:180-185 | each dropped session not LOGGED_OUT yields one Update with it ABANDONED at `now`; a LOGGED_OUT one yields nothing; there is nothing else |
| SimulationPhases.UpdatesKeepIds | data-generator/src/main/java/com/google/demo/DemoGenerator.java:144-160 | updates change sessions in place: every id keeps its position |
| SimulationPhases.UpdatesEvents | data-generator/src/main/java/com/google/demo/DemoGenerator.java:144-160 | update draw k emits one Update for the session at position picks[k] |
| SimulationPhases.UpdatesUntouched | data-generator/src/main/java/com/google/demo/DemoGenerator.java:144-160 | a position no draw hit is unchanged, so each draw changes at most one session |
| SimulationPhases.AdvanceKeepsLive | data-generator/src/main/java/com/google/demo/DemoGenerator.java:147-156 | NEW becomes LOGGED_IN with key "customer"+i; LOGGED_IN becomes LOGGED_OUT ended now; LOGGED_OUT is left as it is; id, start and liveness are kept |
| SimulationPhases.UpdatesKeepLive | data-generator/src/main/java/com/google/demo/DemoGenerator.java:144-160 | updates keep every session live and emit only live sessions |
| SimulationPhases.DeletesPartition | data-generator/src/main/java/com/google/demo/DemoGenerator.java:164-172 | the sessions left plus the sessions deleted are, as a multiset, the sessions there were |
| SimulationPhases.DeletesEvents | data-generator/src/main/java/com/google/demo/DemoGenerator.java:164-172 | every event of the delete phase is a Delete |
| SimulationPhases.DeletedFrom | data-generator/src/main/java/com/google/demo/DemoGenerator.java:167-171 | each Delete carries a session of the list it was drawn from |
| SimulationPhases.DeletesKeep | data-generator/src/main/java/com/google/demo/DemoGenerator.java:168 | what remains after deletes was there before |
| SimulationPhases.DeletesRetire | data-generator/src/main/java/com/google/demo/DemoGenerator.java:164-172 | with distinct ids, the remaining ids stay distinct and no deleted id remains |
| SimulationPhases.EvictedFrom | data-generator/src/main/java/com/google/demo/DemoGenerator.java:179-186 | each eviction event abandons a session of the list that was not LOGGED_OUT |
| SimulationPhases.EvictedFromPrefix | data-generator/src/main/java/com/google/demo/DemoGenerator.java:179-186 | each eviction event abandons a session of the dropped front |
| SimulationPhases.EvictCount | data-generator/src/main/java/com/google/demo/DemoGenerator.java:179-186 | eviction emits at most one event per session it removes |
| SimulationTick.TickEventAt | data-generator/src/main/java/com/google/demo/DemoGenerator.java:131-186 | the tick's events are the inserts, then the updates, then the deletes, then the abandons |
| SimulationTick.TickIsFifo | data-generator/src/main/java/com/google/demo/DemoGenerator.java:175-186 | afterwards the working set has size min(10000, size + inserts − deletes) and is the survivors of the deletes followed by the new sessions, cut from the front |
| SimulationTick.TickEventSegments | data-generator/src/main/java/com/google/demo/DemoGenerator.java:131-186 | exactly `insertsPerBatch` Inserts of the new sessions come first; then exactly UpdateCount Updates for the drawn sessions; then DeleteCount Deletes of sessions of ws; then only Updates to ABANDONED; in all, at most 2·inserts + updates + size of ws events |
| SimulationTick.TickEventKind | data-generator/src/main/java/com/google/demo/DemoGenerator.java:131-186 | the same, for one event position |
| SimulationTick.NewSessionsUntouched | data-generator/src/main/java/com/google/demo/DemoGenerator.java:175-176 | with fresh distinct ids, no Update or Delete of the update and delete phases is for a session created in the same tick |
| SimulationTick.TickKeepsLive | data-generator/src/main/java/com/google/demo/DemoGenerator.java:141-186 | if every session of ws is consistent and not ABANDONED, so is every session after the tick, and every event carries a consistent session (end set exactly in the terminal states) |
| SimulationTick.PoolLive | data-generator/src/main/java/com/google/demo/DemoGenerator.java:141-176 | after the updates, and once the new sessions join, every session is live |
| SimulationTick.TickEventConsistent | data-generator/src/main/java/com/google/demo/DemoGenerator.java:131-186 | every event of the tick carries a consistent session |
| SimulationTick.TickRecordFromPool | data-generator/src/main/java/com/google/demo/DemoGenerator.java:176-186 | every session left after the tick comes from the list after `addAll` |
| SimulationTick.TickIdsFrom | data-generator/src/main/java/com/google/demo/DemoGenerator.java:131-186 | every id the tick mentions, in its events or in its working set, is an id of ws or of a new session |
| SimulationTick.TickEventIdFrom | data-generator/src/main/java/com/google/demo/DemoGenerator.java:131-186 | the same, for one event |
| SimulationTick.OldIdNotNew | data-generator/src/main/java/com/google/demo/model/Session.java:41 | with distinct ids, an id of ws is no new session's id |
| SimulationTick.PoolDistinct | data-generator/src/main/java/com/google/demo/DemoGenerator.java:163-176 | with distinct ids, the survivors' ids and the ids after `addAll` stay distinct, and no deleted id survives |
| SimulationTick.RecordsArePoolSuffix | data-generator/src/main/java/com/google/demo/DemoGenerator.java:176-186 | the working set after the tick is a suffix of the list after `addAll` |
| SimulationTick.RetiredByDelete | data-generator/src/main/java/com/google/demo/DemoGenerator.java:167-168 | a deleted session is not in the working set after the tick |
| SimulationTick.RetiredByEviction | data-generator/src/main/java/com/google/demo/DemoGenerator.java:180 | an abandoned (evicted) session is not in the working set after the tick |
| SimulationTick.TickRetires | data-generator/src/main/java/com/google/demo/DemoGenerator.java:163-186 | with distinct ids, ids stay distinct, and no session deleted or evicted in the tick stays in the working set |
| SimulationTick.BatchesAgree | data-generator/src/main/java/com/google/demo/DemoGenerator.java:137-184 | the two batches have equal length; entry i of both is for the same session id; the Bigtable entry is a delete-row exactly where the row is tagged "D"; rows carry consecutive, strictly increasing sequence numbers |
| SimulationTick.WorkedExample | data-generator/src/main/java/com/google/demo/DemoGenerator.java:141-186 | 10 sessions, 10 inserts, 20% updates, 10% deletes: 2 Updates, 1 Delete, no failure, 13 events and 19 sessions afterwards |
| SimulationRun.States | data-generator/src/main/java/com/google/demo/DemoGenerator.java:121-193 | one working set per tick, the first being the starting working set |
| SimulationRun.RunEvents | data-generator/src/main/java/com/google/demo/DemoGenerator.java:121-193 | one event list per tick, the first being the first tick's events |
| SimulationRun.AbsentIdNeverAppears | data-generator/src/main/java/com/google/demo/DemoGenerator.java:121-193 | an id that is neither in the first working set nor among the run's new ids appears in no event of any tick |
| SimulationRun.RetiredNeverReappear | data-generator/src/main/java/com/google/demo/DemoGenerator.java:121-193 | with distinct ids, the id of a Delete or abandon event in tick t appears in no event of any later tick |
| DemoGenerator.InsertOne | data-generator/src/main/java/com/google/demo/DemoGenerator.java:134-138 | a fresh NEW session, sent to both batches as one upsert and one "I" row |
| DemoGenerator.CreateInserts | data-generator/src/main/java/com/google/demo/DemoGenerator.java:132-139 | one fresh, distinct session object per seed, in seed order, with their Insert entries and rows sent in that order |
| DemoGenerator.AdvanceSession | data-generator/src/main/java/com/google/demo/DemoGenerator.java:147-156 | the `switch` advances the session in place exactly as `Simulation.Advance` |
| DemoGenerator.UpdateOne | data-generator/src/main/java/com/google/demo/DemoGenerator.java:145-159 | only the session at the drawn position changes, to its advanced state, which is sent as one upsert and one "U" row |
| DemoGenerator.SimulateUpdates | data-generator/src/main/java/com/google/demo/DemoGenerator.java:143-160 | the update loop leaves the list's states and both batches as `Simulation.Updates` says |
| DemoGenerator.DeleteOne | data-generator/src/main/java/com/google/demo/DemoGenerator.java:165-171 | the drawn session is removed from the list, the others keeping their order, and is sent as one delete-row entry and one "D" row |
| DemoGenerator.SimulateDeletes | data-generator/src/main/java/com/google/demo/DemoGenerator.java:163-172 | fails exactly when there are more draws than sessions; otherwise leaves the list and both batches as `Simulation.Deletes` says |
| DemoGenerator.EvictOne | data-generator/src/main/java/com/google/demo/DemoGenerator.java:180-185 | the front session leaves the list, and its abandon events are sent: one upsert and one "U" row, or nothing if it was LOGGED_OUT |
| DemoGenerator.EvictOldest | data-generator/src/main/java/com/google/demo/DemoGenerator.java:179-186 | the eviction loop keeps a suffix of the list, with exactly the states and events of `Simulation.Evict` |
| DemoGenerator.EvictStopsAt | data-generator/src/main/java/com/google/demo/DemoGenerator.java:179 | where the loop stops is where `Evict` stops |
| DemoGenerator.ChangePreviousRecords | data-generator/src/main/java/com/google/demo/DemoGenerator.java:141-173 | does nothing on an empty list; otherwise runs the updates then the deletes, failing exactly when a delete draw meets an empty list |
| DemoGenerator.ChangeRecords | data-generator/src/main/java/com/google/demo/DemoGenerator.java:131-176 | inserts, then updates and deletes on the old sessions, then `addAll`: the list holds `Simulation.Pool`, its objects stay distinct, and the batches hold the inserts', updates' and deletes' entries in that order |
| DemoGenerator.FillBatches | data-generator/src/main/java/com/google/demo/DemoGenerator.java:127-186 | fresh empty batches, filled with exactly the events of `Simulation.Tick`; the list left is its working set |
| DemoGenerator.RunTick | data-generator/src/main/java/com/google/demo/DemoGenerator.java:127-190 | one tick. If a delete draw fails, the tick stops exactly as `Tick` says. Otherwise the list and both batches are `Tick`'s, and the counter advances by the number of events. The tick then ends in one of three ways: stopped by Bigtable's refusal, in which case BigQuery is not attempted; failed with BigQuery's errors; or committed with the number of rows sent |

## Left out

- BigQueryService.BigQueryService.AddRowWithOperation: does not model the 32-bit wrap of
  `AtomicInteger.incrementAndGet`. It requires the counter to be below 2^31 − 1, so the numbers
  it hands out stay within a Java int. The generator is single-threaded, so atomicity is not
  modelled either.
- BigQueryService.BigQueryService.AddRowWithOperation: Java's `row.put` writes the operation
  and sequence columns into the caller's own map (BigQueryService.java:83-84). The model
  appends a tagged copy and leaves the caller's row as it was. Every caller passes a
  freshly built `toBigQueryRow()`, so nothing observable differs.
- BigQueryService.BigQueryService.AddInsertRow, BigQueryService.BigQueryService.AddUpdateRow and
  BigQueryService.BigQueryService.AddDeleteRow: the same counter bound as a precondition.
- DemoGenerator.RunTick: requires room on the counter for the most rows one tick can add.
  `RowBound` counts two per insert, one per update and delete, and one per old session. No
  wrap-around is modelled.
- BigQueryService.BigQueryService.DoBatchInserts: requires a positive batch size whenever
  records remain. With a batch size of zero the Java loop never ends. With a negative one,
  `Math.min` gives the negative size, so each pass sends an empty `UNNEST([])` statement.
  `recordCount -= batchSize` then grows the count until the 32-bit int wraps negative and
  the loop stops. Neither case is modelled. The only caller passes 100
  (DemoGenerator.java:92).
- ConversionUtil.FormatTimestamp: the UTC calendar rendering belongs to the BigQuery client
  library. Its stand-in is the decimal microsecond count. So the unit test's timestamp text
  (StructTest.java:35-36) is not reproduced. Only two facts are relied on: null converts to
  null, and the text holds no quote.
- Clock readings: the Java code calls `Instant.now()` separately for each new session, logout
  and abandon. The model takes one clock reading per new session (its seed) and one `now` per
  tick for logouts and abandons.
- Network calls are not modelled. These are `bulkMutateRows` (Bigtable `bulkUpdate`), `insertAll`
  and the backfill's `bigQuery.query`. The Bigtable commit's success is a flag. The `insertAll`
  response is an input. Backfill statements are returned instead of sent.
- Exceptions are outcomes of `RunTick`. The model states nothing about the state of the objects
  after one: in Java the exception ends the program. This covers the `nextInt(0)` of a delete
  draw, a failed Bigtable commit and an insert response with errors. Log messages and the
  exception's message text are not modelled.
- The streaming loop around the tick is not modelled as a program. This covers the `sync.stop`
  file check, `Thread.sleep`, `main`, command-line parsing and client wiring. A run of ticks is
  stated on values in `SimulationRun`, each tick on the working set the previous one left.
- Getters of `Session` are not separate members. The model reads the fields directly.
- Validity of the escaped string as a SQL literal is not claimed. Backslashes and line breaks are
  not escaped.
- setup/bigquery/remove-processed-session-delta-partitions.py is not part of this model. It is
  BigQuery client I/O.
