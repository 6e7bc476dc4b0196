# payload-tracker-go consumer core in Dafny

This project models the consumer side of the payload tracker. The tracker reads
payload-status events from a Kafka topic. It resolves status, service and source
names to dimension rows, upserts the payload keyed on its `request_id`, and
inserts a payload-status row. The model covers two Go files:

- `internal/queries/queries_consumer.go` is modelled by three modules:
  - `Store` (`store.dfy`): the name lookup and the write path.
  - `TtlCache` (`ttl_cache.dfy`): the expiring cache.
  - `Repository` (`repository.dfy`): the two `PayloadFieldsRepository` implementations and their factory.
- `internal/kafka/kafka.go` is modelled by `EventLoop` (`event_loop.dfy`): the `NewConsumerEventLoop` dispatch loop.

Shared row types live in `Models` (`models.dfy`).

How the model represents the system:

- **Store.** The store is a `Database` object.
  - Payloads are a map from `request_id` to row. The upsert's `ON CONFLICT (request_id)` needs a unique index on that column.
  - Each dimension table is a sequence of rows in primary-key order. `First` returns the lowest key, so a lookup returns the first matching row.
  - Payload-status rows are a sequence.
  - Identifiers are generated per table from 1 upward.
- **Cache.** Each cache is a map from name to (value, insertion time).
  - Time is an explicit parameter, in nanoseconds like Go's `time.Duration`.
  - The time-to-live is 12 hours.
  - An entry is served while `now <= insertedAt + TTL`, because the library's expiry test `now.After(expiresAt)` is strict.
- **Store calls.** The direct repository counts its store round trips in a ghost field, `lookups`. The cached repository's promises about calls to the wrapped repository are stated through this field.
- **Event loop.** The loop reads a finite sequence of iterations. Each iteration is either a pending termination signal or the result of one poll: nothing, a message, an error, an offsets-committed report, or another event. The loop returns the messages it hands to the handler.

The model follows the code on these points:

- The resolver is selected by the strings `"db"` and `"db_with_cache"`.
- A missed name is only looked up and never created.
- Dimension rows are created by a plain insert, not an insert that ignores conflicts.
- `UpsertPayloadByRequestId` never reads its `request_id` parameter. The conflict key is the payload's own `RequestId`, and the model keeps it that way.

## Model

| member | source | states |
|---|---|---|
| `Store.FindByName` | internal/queries/queries_consumer.go:36-55 | A lookup returns either the zero row or a stored row with that name. When no row has the name, it returns the zero row. |
| `Store.FindByNameIsFirst` | internal/queries/queries_consumer.go:39 | When names repeat, the lookup returns the first matching row in primary-key order. |
| `Store.NotFoundIsZero` | internal/queries/queries_consumer.go:36-55 | In a table with generated (positive) ids, the zero row comes back exactly when no row has the name. A miss is the zero value, not an error. |
| `Store.FindAfterAppend` | internal/queries/queries_consumer.go:189-208 | A plain insert never changes what an existing name resolves to, because the oldest row wins. A name that was absent then resolves to the new row. |
| `Store.ColumnsToUpdate` | internal/queries/queries_consumer.go:153-167 | The update list starts with `request_id`. It has `account`, `org_id`, `inventory_id` and `system_id` each exactly when the incoming field is non-empty. Columns appear in table order with no repeats, and the list has 1 to 5 entries. |
| `Store.AssignCopiesListedColumns` | internal/queries/queries_consumer.go:169-174 | `DO UPDATE SET` on a column list copies exactly the listed columns from the incoming row. Every other column and the primary key stay as they were. |
| `Store.UpdateListAssignsMerge` | internal/queries/queries_consumer.go:153-176 | Applying an update list built as above gives the merge: an empty incoming field never overwrites a stored one. |
| `Store.Merged` | internal/queries/queries_consumer.go:169-176 | The row left after a conflict keeps the stored id and takes each non-empty incoming data field. Every other field keeps its stored value. |
| `Store.MergedNeverClears` | internal/queries/queries_consumer.go:156-167 | A non-empty stored field is never cleared by an upsert. Repeating the same upsert changes nothing more. |
| `Store.UpdateColumns` | internal/queries/queries_consumer.go:180 | A struct update writes exactly the non-empty data fields and never `request_id`. |
| `Store.UpdatedKeepsKeys` | internal/queries/queries_consumer.go:179-180 | The column-level update never changes `request_id` or the id. It replaces a data field only with a non-empty value. |
| `Store.WrittenRow` | internal/queries/queries_consumer.go:210-215 | `source_id` is left out exactly when the event's `Source` equals the zero value. Otherwise it is the `Source` row's id, as the ORM's belongs-to save sets it. All other columns are copied. |
| `Store.WrittenSourceNeverDangles` | internal/queries/queries_consumer.go:210-215 | Because `source_id` is omitted for the zero source, the written row never references a missing source when the resolved source is a stored row. |
| `Store.ZeroSourceIdWouldDangle` | internal/queries/queries_consumer.go:211-212 | In a table of generated ids, a row that wrote the zero source's id 0 would break the source foreign key. This is why the column is omitted. |
| `Store.ResolvedEventIsAccepted` | internal/queries/queries_consumer.go:210-215 | An event whose payload is stored and whose status, service and source come from the resolver (a stored row, or the zero source) satisfies every foreign key of the written row. |
| `Store.Database.GetPayloadByRequestId` | internal/queries/queries_consumer.go:144-151 | Returns the stored row with that request id and no error. When there is none, returns the zero payload and a not-found error. |
| `Store.Database.UpsertPayloadByRequestId` | internal/queries/queries_consumer.go:153-177 | An unseen request id inserts the full row under a new positive id. An existing one is replaced by the merge. The row's id is returned in both cases, and the store invariant is kept. |
| `Store.Database.UpdatePayloadsTable` | internal/queries/queries_consumer.go:179-181 | Updates only the row whose id is the target's, and never changes any row's `request_id` or id. When `updates` has no non-empty data field, no statement runs and no error is reported. Otherwise a target without an id is refused with a missing-where error and nothing changes. |
| `Store.Database.CreatePayloadTableEntry` | internal/queries/queries_consumer.go:183-187 | A plain insert that returns the row with its generated id. The unique `request_id` index refuses a duplicate and leaves the table unchanged. |
| `Store.Database.CreateStatusTableEntry` | internal/queries/queries_consumer.go:189-194 | Appends a status row with the given name and a fresh positive id, returns it, and advances the table's id counter by one. |
| `Store.Database.CreateSourceTableEntry` | internal/queries/queries_consumer.go:196-201 | Appends a source row with the given name and a fresh positive id, returns it, and advances the table's id counter by one. |
| `Store.Database.CreateServiceTableEntry` | internal/queries/queries_consumer.go:203-208 | Appends a service row with the given name and a fresh positive id, returns it, and advances the table's id counter by one. |
| `Store.Database.InsertPayloadStatus` | internal/queries/queries_consumer.go:210-215 | Appends exactly the row `WrittenRow` describes when each written payload, status, service and source reference names a stored row. Otherwise it returns a foreign-key error and nothing changes. |
| `TtlCache.GetAfterAdd` | internal/queries/queries_consumer.go:121-134 | A value added at time t is served at every time up to t + 12h, and at no time after. |
| `TtlCache.AddKeepsOtherKeys` | internal/queries/queries_consumer.go:121-134 | The size is 0, meaning unbounded, so adding a key never evicts or changes another key's answer. |
| `TtlCache.HitIsWithinTtl` | internal/queries/queries_consumer.go:58-61 | A served value was inserted no more than the time-to-live before now, so staleness is bounded by the TTL. |
| `Repository.CachedGet` | internal/queries/queries_consumer.go:57-102 | A hit returns the cached value, leaves the cache unchanged and makes zero wrapped calls. A miss makes exactly one wrapped call, caches its result at `now` (even the zero row), and returns it. |
| `Repository.CachedGets` | internal/queries/queries_consumer.go:57-71 | A run of lookups gives one answer per lookup and makes at most one wrapped call per lookup. |
| `Repository.HitsCallNothing` | internal/queries/queries_consumer.go:57-62 | Repeated lookups of a cached name before its entry expires make no wrapped call, and all return the cached value. |
| `Repository.FirstSightingCallsOnce` | internal/queries/queries_consumer.go:64-70 | The first lookup of an uncached name calls the wrapped repository exactly once. Every further lookup within the TTL calls it no more, and all of them return the store's answer. |
| `Repository.ExpiredEntryCallsAgain` | internal/queries/queries_consumer.go:121-134 | After the TTL the next lookup calls the wrapped repository exactly once more, whatever value was cached. |
| `Repository.CachedMissHidesNewRows` | internal/queries/queries_consumer.go:64-70 | A cached "not found" is served until it expires, even after the store gains a row with that name. |
| `Repository.OneCallPerUncachedName` | internal/queries/queries_consumer.go:57-102 | Within one TTL window, the wrapped calls equal the number of distinct names that were not already cached. |
| `Repository.DirectRepository.GetStatus` | internal/queries/queries_consumer.go:36-41 | Returns the first status row with the name, or the zero row. Makes one store round trip. |
| `Repository.DirectRepository.GetService` | internal/queries/queries_consumer.go:43-48 | Returns the first service row with the name, or the zero row. Makes one store round trip. |
| `Repository.DirectRepository.GetSource` | internal/queries/queries_consumer.go:50-55 | Returns the first source row with the name, or the zero row. Makes one store round trip. |
| `Repository.CachedRepository.constructor` | internal/queries/queries_consumer.go:120-142 | Wraps the given repository with three empty caches, one per dimension. |
| `Repository.CachedRepository.GetStatus` | internal/queries/queries_consumer.go:57-71 | Behaves as `CachedGet` on the status cache against the wrapped store. The service and source caches are untouched. |
| `Repository.CachedRepository.GetService` | internal/queries/queries_consumer.go:73-87 | Behaves as `CachedGet` on the service cache. The status and source caches are untouched. |
| `Repository.CachedRepository.GetSource` | internal/queries/queries_consumer.go:89-103 | Behaves as `CachedGet` on the source cache. The status and service caches are untouched. |
| `Repository.SelectImplementation` | internal/queries/queries_consumer.go:108-115 | `"db"` selects the direct lookup and `"db_with_cache"` the cache. Any other string selects nothing. |
| `Repository.NewPayloadFieldsRepository` | internal/queries/queries_consumer.go:105-118 | `"db"` gives a fresh direct repository over the store, and `"db_with_cache"` a fresh cache with empty caches wrapping one. Any other value gives no repository and the configuration error. |
| `EventLoop.StopIndex` | internal/kafka/kafka.go:79-85 | The loop stops at the first iteration that catches the signal. No earlier iteration catches one. |
| `EventLoop.StopIndexIsFirstSignal` | internal/kafka/kafka.go:81-85 | The stopping iteration is uniquely the first signal. |
| `EventLoop.AtMostOneCountPerEvent` | internal/kafka/kafka.go:88-110 | Each polled event moves at most one counter, so handled messages plus counted errors never exceed the events polled. A run with no message and no error moves neither counter. |
| `EventLoop.TalliesOfConcat` | internal/kafka/kafka.go:93-110 | The handled messages and error counts of a run are the sums over its parts. |
| `EventLoop.NewConsumerEventLoop` | internal/kafka/kafka.go:60-116 | If the repository cannot be built, the run is fatal: nothing is polled, counted or closed. Otherwise each iteration before the first signal polls once. The consumed counter grows by exactly the messages handed to the handler, in order, and the error counter by exactly the bus errors. Close is called exactly once, after the signal. |

## Left out

- `NewConsumer` (`internal/kafka/kafka.go:19-58`) is left out: it only builds the Kafka configuration map and subscribes.
- SQL generation by the ORM and driver behaviour are left out. Connection and driver failures of each statement (its `Error` field) are not modelled. The modelled errors are the not-found lookup, a duplicate `request_id` insert, an update with something to write but no primary key, and a payload-status row that breaks a foreign key.
- `Store.Database.InsertPayloadStatus`: the ORM's saving of the `Status`, `Service` and `Source` associations before the row is inserted is not modelled. A non-zero `Source` is taken to be a row the resolver returned, so only its id is used; an unsaved `Source` row would be inserted by the ORM instead of failing the foreign key.
- Timestamp columns such as `created_at` and `updated_at` are not modelled.
- `Store.Database.UpdatePayloadsTable`: an update with no non-empty data field is a no-op without error only if the payload row has no column the ORM sets automatically on update. The `models.Payloads` struct is not part of this model, so that is assumed.
- `Store.Database.UpsertPayloadByRequestId`: a caller-supplied non-zero `Id` on the incoming payload is ignored. The id is always generated.
- `Store.Database.CreatePayloadTableEntry`: a caller-supplied non-zero `Id` on the incoming payload is ignored. The id is always generated.
- No uniqueness constraint on dimension names is assumed, because the schema is not part of this model. Duplicate names can be inserted, and lookups then return the oldest row.
- `Repository.CachedRepository.constructor` cannot fail. The library constructor never returns nil, so the three nil checks in `newPayloadFieldsRepositoryFromCache` are never taken.
- `Repository.CachedRepository`: the wrapped repository is always the direct one, the only one the factory wraps. Wrapping an arbitrary implementation of the interface is not modelled.
- Calls through the `PayloadFieldsRepository` interface are represented by the two classes' methods. There is no separate dispatch member.
- Internals of the expiring LRU are left out: background expiry, recency order, and locking for concurrent readers. The clock is a parameter, not `time.Now`, and it is not assumed to be monotonic.
- OS signal registration is left out. A caught signal is an iteration of the input.
- The body of `handler.onMessage` is left out. The loop only records the messages it hands over.
- `EventLoop.NewConsumerEventLoop` reads a finite input. When the input ends without a signal, it returns "still polling" and does not close the consumer. The source would go on polling.
- Logging (`fmt.Printf`, `l.Log`) is left out. So is the metrics endpoint beyond its two counters.
